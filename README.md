# Hospital management: a verified model of its business rules

The system is a small hospital application. An Express server keeps an
inventory catalog, a sales ledger and a user directory, in memory when no
database answers. A React front end adds several screens:

- a billing desk that builds bills from a fixed price table, registers
  patients and discharges them;
- a dashboard that summarises patients, revenue and stock;
- an inventory screen that filters, sorts, restocks and consumes items;
- a reports screen;
- a patient list with search, sort and edits;
- a session provider and a route gate;
- the endpoint table;
- a landing page with a slide carousel.

This project restates each of those rules in Dafny and proves what they
promise. It is one module per source file, plus `Common` for the shared
records and list helpers:

| module | file | models |
|---|---|---|
| `Common` | `common.dfy` | shared records (`Supply`, `Patient`, `Bill`, `BillLine`, `RevenueStats`, `SessionUser`) and the JavaScript list and string operations used everywhere (`filter`, `reduce`, a `sort` by an integer key, proved stable, `includes`, `toLowerCase`, number templating) |
| `BackendStore` | `backend_store.dfy` | the server's login, dashboard, user-dashboard, sales-report and sale handlers in memory mode; the inventory add and restock handlers both as written (a 500 in memory mode) and as corrected (see Findings); as pure functions and as the `Store` class that owns the three lists |
| `InventoryEngine` | `inventory_engine.dfy` | the `InventorySystem` helper and the `InventoryPage` state with its restock and consume handlers |
| `Billing` | `billing.dfy` | the billing desk's rules as pure step functions over `DeskState`, and the `BillingDesk` class whose methods perform them |
| `HospitalData` | `hospital_data.dfy` | the dashboard's `HospitalDataService` getters as folds over lists |
| `Reports` | `reports.dfy` | the reports screen's sums and its error decision |
| `PatientList` | `patient_list.dfy` | the patient list's load, sort toggle, filter and sort, delete, update and save |
| `Auth` | `auth.dfy` | the session provider (`AuthProvider` class) and its stored copy |
| `PrivateRoute` | `private_route.dfy` | the route gate |
| `Config` | `config.dfy` | the endpoint table |
| `Home` | `home.dfy` | the carousel (`Carousel` class) and the `MedicalService` class |

How the model stands in for the parts of the program that are not logic:

- **Time and the browser.** Times are integers: sale dates and `now` in
  milliseconds, bill and admission dates as day numbers (`Common.DayOf`).
  The browser's storage entries are parameters or class fields.
- **Sorting.** Sorts by text are ranked by a `collate: string -> int`
  parameter that stands for `localeCompare`'s order.
- **Randomness.** `Math.random` picks are parameters (`draw`, `pick`).
- **Whether a server answered.** The probing of ports is a boolean
  (`serverFound`).

## Model

| member | source | states |
|---|---|---|
| BackendStore.FindItem | backend/server.js:668 | the index found is the first catalog item with that exact name; None means no item has it |
| BackendStore.FindUser | backend/server.js:293 | the index found is the first user matching both username and password; None means no user matches both |
| BackendStore.Sell | backend/server.js:655-697 | an empty name, a missing quantity or one below 1 is a 400; an unknown product is a 404; too little stock is a 400 "Insufficient stock"; every error leaves catalog and ledger unchanged; a sale lowers exactly that item's stock by the quantity, leaves the other items alone and appends exactly one sale whose total is price times quantity |
| BackendStore.SellKeepsStockNonNegative | backend/server.js:672-678 | from a catalog with no negative stock, a sale never makes a stock negative |
| BackendStore.RecordLogin | backend/server.js:304-307 | the login count goes up by exactly 1; the last login becomes now; exactly one history entry is appended; nothing else in the user changes |
| BackendStore.Authenticate | backend/server.js:277-346 | a missing username or password is a 400; no user matching both is a 401 "Invalid credentials" with the users unchanged; success records the login on the matching user only and replies with the user without the password |
| BackendStore.WrongPasswordLooksLikeUnknownUser | backend/server.js:293-300 | a wrong password gets the same 401 reply as an unknown username |
| BackendStore.AddItemAsWritten | backend/server.js:586-612 | the handler as written: a request that passes validation reaches the database handle, which does not exist in memory mode, so it is a 500 and the catalog is unchanged |
| BackendStore.RestockAsWritten | backend/server.js:617-650 | the handler as written: every valid restock fails with a 500 and changes nothing |
| BackendStore.AddItem | backend/server.js:591-609 | missing fields are a 400; a duplicate name is a 400 and the catalog is unchanged; otherwise the item is appended with a 201 |
| BackendStore.Restock | backend/server.js:622-637 | a missing name or a quantity below 1 is a 400; an unknown name is a 404; otherwise exactly that item's stock grows by the quantity |
| BackendStore.AddedItemIsFound | backend/server.js:591-609 | after a successful add, the new item is found at the end and the old catalog is its prefix |
| BackendStore.AddItemAsWrittenLosesItem | backend/server.js:596 | a concrete new item that the intended add accepts (201) is refused with a 500 as written |
| BackendStore.RestockAsWrittenRefuses | backend/server.js:627 | a concrete valid restock that the intended handler performs (200, stock 5 to 7) is refused with a 500 as written |
| BackendStore.RestockThenSell | backend/server.js:622-637 | restocking q units and then selling q units of the same item succeeds and gives back the original catalog |
| BackendStore.RecentSales | backend/server.js:379-381 | every sale kept is dated no earlier than 30 days before now, and every such sale of the ledger is kept |
| BackendStore.TotalSalesCountsRecentOnly | backend/server.js:383 | `totalSales` is the revenue of exactly the sales dated at or after the 30-day cutoff |
| BackendStore.RevenueSinceAppend | backend/server.js:383 | the revenue since a cutoff is additive over concatenated ledgers |
| BackendStore.SaleAddsToTotalSales | backend/server.js:379-383 | a successful sale, dated now, adds its total to the dashboard's 30-day revenue |
| BackendStore.InventoryValueReordered | backend/server.js:386-388 | the inventory value does not depend on the order of the catalog |
| BackendStore.SaleLowersInventoryValue | backend/server.js:386-388 | a successful sale lowers the inventory value by exactly price times quantity |
| BackendStore.RestockRaisesInventoryValue | backend/server.js:386-388 | a restock raises the inventory value by exactly price times quantity |
| BackendStore.StockLines | backend/server.js:393 | one `{name, quantity}` line per item, in catalog order |
| BackendStore.LowStockItems | backend/server.js:391-393 | every line has stock below 5, every item with stock below 5 has its line, and every line comes from an item |
| BackendStore.LowStockAppend | backend/server.js:391-393 | appending an item adds its line at the end exactly when its stock is below 5, so the lines keep catalog order |
| BackendStore.StockLinesAppend | backend/server.js:393 | the lines of concatenated catalogs are the concatenated lines |
| BackendStore.LeastInStock | backend/server.js:410-416 | None exactly for an empty catalog; otherwise an item with the least stock, and the first such item when several tie |
| BackendStore.MostInStock | backend/server.js:417-421 | None exactly for an empty catalog; otherwise an item with the most stock, and the first such item when several tie |
| BackendStore.Products | backend/server.js:397-405 | the products of the ledger, each once, and only products that were sold |
| BackendStore.AbsentProductSoldNothing | backend/server.js:397-402 | a product never sold has no units and no revenue |
| BackendStore.SumsAppend | backend/server.js:397-402 | one more sale adds its units and revenue to its own product only |
| BackendStore.TallyAppendKnown | backend/server.js:541-550 | a sale of a product already in the report adds to that product's row |
| BackendStore.TallyAppendNew | backend/server.js:541-550 | a sale of a new product appends a new row holding that sale alone |
| BackendStore.TallyRevenueStep | backend/server.js:541-550 | one more sale adds its total to the sum of the report's revenues |
| BackendStore.TallyRevenueIsTotal | backend/server.js:541-554 | the report's `totalRevenue`, the sum of the per-product revenues, is the total of every sale |
| BackendStore.CountSale | backend/server.js:534-551 | one loop step: the rows after counting a sale are the report of the ledger so far plus that sale |
| BackendStore.TallyByProduct | backend/server.js:531-554 | the loop builds exactly the per-product report, and its revenue total is both the ledger's total and the sum of the rows |
| BackendStore.BestSellers | backend/server.js:397-407 | the first three rows of the stable sort: at most 3 sellers, in non-increasing order of units sold, each a row of the report and none listed more often than the report has it; no product left out sold more than one listed; among rows with the same units, those listed are the first of the report, in report order |
| Common.SortByStable | backend/server.js:406 | the sort by an integer key is stable: for every key, the elements with that key keep their input order |
| BackendStore.TopComesFromRows | backend/server.js:404-407 | the top sellers are sellers of the report |
| BackendStore.ToSellers | backend/server.js:405 | one `{name, soldQuantity}` per row, in order |
| BackendStore.ShownSalesAsWritten | backend/server.js:430 | the dashboard's `recentSales` as written: the first 5 recent sales in ledger order |
| BackendStore.ShownSales | backend/server.js:430 | the corrected list: exactly five recent sales, or all of them when fewer, each taken from the recent ones |
| BackendStore.ShownSalesAreNewest | backend/server.js:430 | the corrected list is newest first, and every recent sale left out is no newer than the ones shown |
| BackendStore.AllRecent | backend/server.js:379-381 | a ledger dated within the last 30 days is all recent |
| BackendStore.ShownSalesAsWrittenMissesNewest | backend/server.js:430 | with more than 5 recent sales in date order, the newest sale is not in the list sent as written |
| BackendStore.ShownSalesShowsNewest | backend/server.js:430 | with the same ledger, the corrected list starts with the newest sale |
| BackendStore.BestSeller | backend/server.js:466-477 | "No products sold yet" with 0 for an empty report; otherwise a product with the most units, the later one winning a tie |
| BackendStore.OurPreference | backend/server.js:480-490 | "No items in inventory" with 0 for an empty catalog; otherwise an item with the highest price, the later one winning a tie |
| BackendStore.Store.constructor | backend/server.js:41-43 | the store starts with the fallback catalog, an empty ledger and the built-in users |
| BackendStore.Store.ProcessSale | backend/server.js:655-697 | the store's catalog and ledger become what `Sell` gives and the reply is its reply; the users are unchanged |
| BackendStore.Store.Login | backend/server.js:277-346 | the users become what `Authenticate` gives and the reply is its reply; catalog and ledger are unchanged |
| BackendStore.Store.Add | backend/server.js:586-612 | the corrected handler: the catalog becomes what `AddItem` gives; ledger and users are unchanged |
| BackendStore.Store.RestockItem | backend/server.js:617-650 | the corrected handler: the catalog becomes what `Restock` gives; ledger and users are unchanged |
| BackendStore.Store.Dashboard | backend/server.js:360-436 | the reply holds 30-day revenue, inventory value, low-stock lines, best sellers, least and most in stock, and the corrected list of shown sales (`ShownSales`), each as the functions above compute them |
| BackendStore.Store.UserDashboard | backend/server.js:441-512 | the reply holds the best seller, the highest-priced item, the drawn item and the low-stock lines |
| BackendStore.Store.SalesReport | backend/server.js:517-562 | the reply holds the per-product report and a revenue total equal both to the ledger's total and to the sum of the rows |
| InventoryEngine.GetInventoryStats | frontend/src/components/Inventory.js:55-62 | total items is the sum of stock, total value the sum of price times stock (absent as 0); the low count is the items with 0 < stock < 10, the out count those with stock <= 0; the two never add up to more than the items |
| InventoryEngine.TotalItemsFromBack | frontend/src/components/Inventory.js:57 | the stock total equals a sum that reads the list from the other end |
| InventoryEngine.RestockItem | frontend/src/components/Inventory.js:87-92 | the stock becomes stock plus quantity and every other field is unchanged |
| InventoryEngine.ConsumeItem | frontend/src/components/Inventory.js:95-101 | the stock becomes max(0, stock - quantity), never negative, and every other field is unchanged |
| InventoryEngine.ConsumeUndoesRestock | frontend/src/components/Inventory.js:87-101 | consuming what was just restocked gives back the original stock |
| InventoryEngine.RestockRaisesTotals | frontend/src/components/Inventory.js:87-92 | restocking one slot raises the stock total by the quantity and the value by price times quantity |
| InventoryEngine.ProcessInventory | frontend/src/components/Inventory.js:65-84 | the result is a sub-multiset of the input; each item kept matches the category (or 'all') and contains the filter text ignoring case; each matching item is kept, as many times as the input has it; the result is ordered by the chosen field, ascending for 'asc' and descending otherwise |
| InventoryEngine.ProcessInventoryByPrice | frontend/src/components/Inventory.js:71-77 | sorting by price gives non-decreasing prices for 'asc' and non-increasing ones otherwise |
| InventoryEngine.ProcessInventoryByStock | frontend/src/components/Inventory.js:71-77 | the same for stock |
| InventoryEngine.ProcessInventoryKeepsAll | frontend/src/components/Inventory.js:66-70 | an empty filter and the 'all' category keep every item: the result is a permutation of the input |
| InventoryEngine.IndexOfName | frontend/src/components/Inventory.js:264 | the index found is the first item with that name; None means none has it |
| InventoryEngine.InventoryPage.constructor | frontend/src/components/Inventory.js:109-121 | the screen starts with nothing selected, quantity 1, no error and no message |
| InventoryEngine.InventoryPage.ReplaceAt | frontend/src/components/Inventory.js:274-278 | the copy differs from the list in slot k only |
| InventoryEngine.InventoryPage.HandleRestock | frontend/src/components/Inventory.js:252-296 | no item, a quantity of 0 or less, or an unknown name sets the error and leaves the list and storage unchanged; otherwise only the selected slot is restocked, on screen and in storage, and the selection is cleared |
| InventoryEngine.InventoryPage.HandleConsume | frontend/src/components/Inventory.js:298-348 | as for restock, plus "Not enough stock available. Current stock: N" when the stock is below the quantity; otherwise only the selected slot is consumed |
| InventoryEngine.HandledConsumeIsExact | frontend/src/components/Inventory.js:316-330 | a consume the handler lets through takes exactly the quantity off: the clamp at 0 is never needed |
| Billing.FindService | frontend/src/components/Sales.js:206 | a service found has that name |
| Billing.FindServiceInTable | frontend/src/components/Sales.js:31-43 | the service found is the first in the table with that name, and the lookup fails exactly when no entry has it |
| Billing.BillTotalAppend | frontend/src/components/Sales.js:402-404 | adding a line adds its price to the total |
| Billing.BillTotalNonNegative | frontend/src/components/Sales.js:319 | lines priced at least 0 total at least 0 |
| Billing.RemoveBillItem | frontend/src/components/Sales.js:398-400 | every line with that id goes and every other line stays |
| Billing.RemoveBillItemTotal | frontend/src/components/Sales.js:398-404 | removing the lines with an id takes exactly their prices off the total |
| Billing.MakeLine | frontend/src/components/Sales.js:210-218 | the line copies the service's name, category and price, and its total is unit price times quantity |
| Billing.AddToBillError | frontend/src/components/Sales.js:187-205 | no error exactly when a patient and a service are chosen, the quantity is at least 1 and the service is in the table; otherwise the first failing check's message, down to "Selected service not found" for a name the table lacks |
| Billing.MarkDischarged | frontend/src/components/Sales.js:362-371 | every patient with that id becomes 'Discharged' on that day and every other patient is unchanged |
| Billing.MarkDischargedIdempotent | frontend/src/components/Sales.js:362-371 | discharging twice is discharging once |
| Billing.NoTableServiceDischarges | frontend/src/components/Sales.js:354-357 | no service of the price table contains 'discharge' or 'final' in lower case |
| Billing.TableBillNeverDischarges | frontend/src/components/Sales.js:354-357 | a bill whose lines all come from the table never triggers the discharge |
| Billing.RewriteName | frontend/src/components/Sales.js:150-163 | a name without a legacy keyword is kept; otherwise the first keyword in the chain's order (Shirt, Bastar, Bottle, Keyring, Canvas, Stationery) decides the new name, each keyword's name stated |
| Billing.RewriteNameIdempotent | frontend/src/components/Sales.js:150-163 | no new name contains a keyword, so rewriting twice is rewriting once |
| Billing.RewriteInventory | frontend/src/components/Sales.js:150-169 | the list keeps its length; every item keeps every field except the name, which becomes the rewritten name |
| Billing.RewriteInventoryIdempotent | frontend/src/components/Sales.js:150-169 | rewriting the inventory twice is rewriting it once |
| Billing.Ids | frontend/src/components/Sales.js:91-93 | the ids of the list, in order |
| Billing.LastWithId | frontend/src/components/Sales.js:90-93 | the record a `Map` keyed by id keeps: a record of the list with that id, None exactly when the id is absent |
| Billing.UpsertReplaces | frontend/src/components/Sales.js:92 | setting an id already in the map replaces its record in place and keeps the merge invariant |
| Billing.UpsertAppends | frontend/src/components/Sales.js:92 | setting a new id appends it and keeps the merge invariant |
| Billing.MergedIsLastPerId | frontend/src/components/Sales.js:90-95 | the merge has one record per id, covers every id of the input, and keeps the last record given for each id |
| Billing.RegisteredWins | frontend/src/components/Sales.js:91 | a registered patient replaces a built-in patient with the same id |
| Billing.LastWithIdAppend | frontend/src/components/Sales.js:91-93 | the last record for an id in a concatenation comes from the later list when that list has the id |
| Billing.MergeById | frontend/src/components/Sales.js:90-95 | the loop over the map computes the merge: unique ids, every input id present, each the last record given for it |
| Billing.RegistrationError | frontend/src/components/Sales.js:229-240 | no error exactly when name, age, contact and diagnosis are given and the age is a number from 1 to 120; a missing field gives the "required fields" message; with every field given, an age that is not a number or lies outside 1 to 120 gives "Please enter a valid age" |
| Billing.PatientIdInjective | frontend/src/components/Sales.js:244 | different patient counts give different ids |
| Billing.NewPatient | frontend/src/components/Sales.js:242-256 | the new patient has id `P{1000 + count + 1}`, status 'Admitted', no discharge date, today's admission date, the form's fields, and as doctor the signed-in doctor's username, otherwise 'Unassigned' |
| Billing.MockPatientsNumbered | frontend/src/components/Sales.js:75-84 | the built-in patients are numbered in order, P1001 to P1008 |
| Billing.NextIdIsFresh | frontend/src/components/Sales.js:244 | in a list numbered in order, the next id is new and appending the new patient keeps the numbering |
| Billing.RevenueUpdate | frontend/src/components/Sales.js:286-304 | a 'bill' adds the amount to the revenue and 1 to the bill count; a 'new_patient' adds 1 to the patient count only; any other kind changes nothing |
| Billing.RecordBillsSums | frontend/src/components/Sales.js:296-301 | after recording bills one by one, the revenue has grown by their totals and the bill count by their number, and the patient count is unchanged |
| Billing.BillId | frontend/src/components/Sales.js:330 | the id is 'B' followed by at most six digits |
| Billing.SuffixIsPadded | frontend/src/components/Sales.js:330 | the last k characters of a number with at least k digits are its last k digits |
| Billing.PaddedShift | frontend/src/components/Sales.js:330 | the last k digits do not see a multiple of 10^k |
| Billing.BillIdsRepeat | frontend/src/components/Sales.js:330 | two bills made a multiple of 1,000,000 ms apart get the same id |
| Billing.FilteredHistory | frontend/src/components/Sales.js:470-493 | the result is a sub-multiset of the history; each bill kept matches the search and the date filter (`HistoryMatch`), and each matching bill is kept, as many times as the history has it; newest first |
| Billing.FilteredHistoryStable | frontend/src/components/Sales.js:493 | the sort is stable: for every date, the listed bills of that date are the matching bills of that date in history order |
| Billing.DateFiltersNested | frontend/src/components/Sales.js:484-490 | a bill of today is within the week, and a bill of the week is within the month |
| Billing.UnfilteredHistoryIsWhole | frontend/src/components/Sales.js:470-493 | an empty search with 'all' shows a permutation of the whole history |
| Billing.AddToBillStep | frontend/src/components/Sales.js:183-222 | a failing check sets its error and changes nothing else; an accepted request appends exactly one line for the selected service and quantity |
| Billing.LineFor | frontend/src/components/Sales.js:206-218 | the line has the selected service and quantity, the table's unit price, and total unit price times quantity |
| Billing.AddToBillTotal | frontend/src/components/Sales.js:211-220 | an accepted line raises the bill total by unit price times quantity, and a rejected one leaves it as it was |
| Billing.RegisterStep | frontend/src/components/Sales.js:225-281 | an invalid form sets the error and changes nothing else; a valid one appends the new patient to the stored and shown lists, counts the patient in the revenue counters, clears the error and sets the success message with the new id |
| Billing.RegisterKeepsIdsNumbered | frontend/src/components/Sales.js:244-267 | registering into a list numbered in order gives a new id and keeps the numbering |
| Billing.BillError | frontend/src/components/Sales.js:308-327 | no error exactly when the bill has lines and a listed patient is selected; an empty bill gets "Cannot generate bill with no items" |
| Billing.MakeBill | frontend/src/components/Sales.js:333-342 | the bill names the patient, holds the lines and their total, and is 'Paid' in 'Cash' |
| Billing.GenerateBillOutcome | frontend/src/components/Sales.js:307-396 | an error changes only the error; a paid bill is appended to the history and counted in the revenue, a discharge line discharges the selected patient in both lists, and the bill and selection are cleared |
| Billing.AddToBillKeepsTableLines | frontend/src/components/Sales.js:206-220 | adding a line keeps every line from the price table |
| Billing.RemoveKeepsTableLines | frontend/src/components/Sales.js:398-400 | removing lines keeps every line from the price table |
| Billing.DeskBillsNeverDischarge | frontend/src/components/Sales.js:353-389 | a bill built at the desk never changes either patient list: the discharge branch cannot be reached |
| Billing.BillingDesk.constructor | frontend/src/components/Sales.js:7-50 | the desk starts with the stored lists, nothing selected, quantity 1 and no message |
| Billing.BillingDesk.LoadPatients | frontend/src/components/Sales.js:73-97 | the shown list becomes the merge of the built-in and registered patients: one record per id, every registered id listed, each registered id showing its last stored record |
| Billing.BillingDesk.AddToBill | frontend/src/components/Sales.js:183-222 | the desk's state becomes what `AddToBillStep` gives |
| Billing.BillingDesk.RemoveLine | frontend/src/components/Sales.js:398-400 | only the bill lines change, and the total drops by exactly the removed prices |
| Billing.BillingDesk.RegisterPatient | frontend/src/components/Sales.js:225-281 | the desk's state becomes what `RegisterStep` gives |
| Billing.BillingDesk.GenerateBill | frontend/src/components/Sales.js:307-396 | the desk's state becomes what `GenerateBillStep` gives |
| Billing.BillingDesk.PayBill | frontend/src/components/Sales.js:329-396 | the rest of the handler after its checks, with the same outcome |
| Billing.BillingDesk.DischargeSelected | frontend/src/components/Sales.js:359-389 | the selected patient is discharged in storage and on screen, and nothing else changes |
| HospitalData.PatientStatistics | frontend/src/components/Dashboard.js:73-94 | no registered patients gives 125 / 42 / 83; otherwise the list length and the counts of 'Admitted' and 'Discharged'; active plus discharged never exceeds the total |
| HospitalData.RegistrationCountsAsActive | frontend/src/components/Dashboard.js:86-93 | registering an admitted patient adds 1 to the total and to the active count, and leaves the discharged count alone |
| HospitalData.DischargeMovesPatients | frontend/src/components/Dashboard.js:86-93 | after a discharge, the admitted patients with that id leave the active count and the not yet discharged ones join the discharged count |
| HospitalData.RevenueStatistics | frontend/src/components/Dashboard.js:97-131 | a non-empty history gives the sum of totals, the sum over bills dated today and the history length; an empty one falls back to 5000 when the stored total is absent or 0, otherwise to the stored total; the bill count falls back to the stored one or 0 |
| HospitalData.FilteredSumAtMost | frontend/src/components/Dashboard.js:110-115 | bills with non-negative totals: any filtered part sums to at most the whole |
| HospitalData.TodayWithinTotal | frontend/src/components/Dashboard.js:110-115 | today's revenue lies between 0 and the total revenue |
| HospitalData.NewBillInSummary | frontend/src/components/Dashboard.js:109-121 | a new bill adds its total to the revenue, to today's revenue when dated today, and 1 to the bill count |
| HospitalData.LowRows | frontend/src/components/Dashboard.js:150-154 | one row per low item, in inventory order |
| HospitalData.GetInventoryStatus | frontend/src/components/Dashboard.js:133-158 | an empty inventory gives zeros and no rows; otherwise the sum of stock, the sum of price times stock, and exactly one row per item with 0 < stock < 10 |
| HospitalData.DashboardAgreesWithInventory | frontend/src/components/Dashboard.js:133-158 | the dashboard's stock total, value and low-stock count are the inventory screen's |
| HospitalData.DepartmentShown | frontend/src/components/Dashboard.js:178 | a given department is shown as it is; otherwise the drawn one of the five departments; never empty |
| HospitalData.RecentAdmissions | frontend/src/components/Dashboard.js:164-182 | at most 10 admissions, the first ones of the list in order, each copying id, name, date and status |
| HospitalData.NewestAdmissionNotShown | frontend/src/components/Dashboard.js:172-173 | once 10 patients are registered, a newly registered patient never appears in the list |
| Reports.CalculateItemValue | frontend/src/components/Reports.js:122-125 | 0 for a missing item or a missing price or stock, otherwise price times stock |
| Reports.TotalInventoryValue | frontend/src/components/Reports.js:127-129 | the sum of item values, which equals the inventory screen's total value |
| Reports.TotalStock | frontend/src/components/Reports.js:176 | the sum of stock with absent as 0, equal to the inventory screen's total, and non-negative when every stock is |
| Reports.StockNonNegative | frontend/src/components/Reports.js:176 | non-negative stocks sum to a non-negative total |
| Reports.FromServerAll | frontend/src/components/Reports.js:14-29 | the server's catalog as the screen holds it, item by item |
| Reports.ReportValueIsServerValue | frontend/src/components/Reports.js:127-129 | over the server's catalog, the report's value is the server dashboard's `inventoryValue` |
| Reports.ItemsSold | frontend/src/components/Reports.js:184 | the sum of quantities with absent as 0; 0 for no rows or no quantities |
| Reports.NoQuantitiesSellNothing | frontend/src/components/Reports.js:184 | rows without quantities sum to 0 |
| Reports.FromSummaries | frontend/src/components/Reports.js:31-47 | the server's report rows as the screen holds them, row by row |
| Reports.TallyQuantityStep | frontend/src/components/Reports.js:184 | one more sale adds its units to the sum of the report's quantities |
| Reports.TallyQuantityIsUnits | frontend/src/components/Reports.js:184 | the report's quantities add up to the units in the ledger |
| Reports.ItemsSoldOfSummaries | frontend/src/components/Reports.js:184 | Items Sold over the report rows is the sum of their quantities |
| Reports.ItemsSoldIsUnitsSold | frontend/src/components/Reports.js:184 | Items Sold over the server's report is the number of units in the ledger |
| Reports.FetchAllDataAsWritten | frontend/src/components/Reports.js:49-97 | as written: no server gives the "not responding" message, and otherwise the error view shows exactly when either fetch failed |
| Reports.OneFailedFetchHidesReport | frontend/src/components/Reports.js:41-46 | the inventory loads and the sales fetch fails, yet the error view shows as written |
| Reports.FetchAllData | frontend/src/components/Reports.js:86-91 | corrected: the error view shows exactly when no server answers or both fetches fail, with the message the code gives then |
| PatientList.FetchPatients | frontend/src/components/Patients.js:177-188 | a non-empty saved list is shown and kept; otherwise the built-in patients are shown and stored; the list shown is the one stored and is never empty |
| PatientList.FetchPatientsIsStable | frontend/src/components/Patients.js:177-188 | loading again from what was stored gives the same list |
| PatientList.HandleSort | frontend/src/components/Patients.js:218-227 | the field becomes the chosen one; the same field toggles 'asc' to 'desc' and back; a new field starts at 'asc' |
| PatientList.ToggleTwiceRestores | frontend/src/components/Patients.js:218-227 | sorting the same column twice restores the direction |
| PatientList.NewColumnTwiceIsDescending | frontend/src/components/Patients.js:218-227 | choosing a new column twice sorts it descending |
| PatientList.FilteredPatients | frontend/src/components/Patients.js:238-271 | the result is a sub-multiset of the list; each patient kept matches the search on name, id or diagnosis ignoring case and matches the status; each matching patient is kept, as many times as the list has it; the order follows the chosen column and direction |
| PatientList.UnfilteredShowsEveryone | frontend/src/components/Patients.js:241-250 | an empty search with 'all' keeps a permutation of the whole list |
| PatientList.SortedByAge | frontend/src/components/Patients.js:254-256 | by age the list is non-decreasing for 'asc' and non-increasing for 'desc' |
| PatientList.DeletePatient | frontend/src/components/Patients.js:319 | no record with that id remains, every other record does, and exactly the records with that id are gone |
| PatientList.DeleteKeepsOrder | frontend/src/components/Patients.js:319 | deleting from a concatenation deletes from each part in place: the order is kept |
| PatientList.UpdatePatient | frontend/src/components/Patients.js:358-360 | the length is kept, each record with the edited id is replaced, and the rest are unchanged |
| PatientList.UpdateKeepsIds | frontend/src/components/Patients.js:358-360 | an update keeps the ids in order |
| PatientList.UpdateIdempotent | frontend/src/components/Patients.js:358-360 | updating twice with the same record is updating once |
| PatientList.UpdateOfUnknownId | frontend/src/components/Patients.js:358-360 | an update for an id not in the list changes nothing |
| PatientList.SavePatient | frontend/src/components/Patients.js:424 | the new record goes at the end and the list before it is unchanged |
| PatientList.DeleteUndoesSave | frontend/src/components/Patients.js:319 | deleting the id of a new record just saved gives back the list |
| PatientList.UpdateAfterSave | frontend/src/components/Patients.js:358-360 | updating a new record just saved is saving the edited record |
| Auth.ReloadRoundTrip | frontend/src/AuthContext.js:8-23 | reading back what the effect stored gives the same user |
| Auth.AuthProvider.constructor | frontend/src/AuthContext.js:8-13 | mounting reads the user back from storage, still loading, with storage mirroring the user |
| Auth.AuthProvider.Sync | frontend/src/AuthContext.js:16-23 | the effect writes or removes the entry to mirror the user and ends the loading |
| Auth.AuthProvider.Login | frontend/src/AuthContext.js:26-28 | the user becomes the one given, stored, and signed in |
| Auth.AuthProvider.Logout | frontend/src/AuthContext.js:31-33 | nobody is signed in, the entry is removed, and nobody is an administrator |
| Auth.LoginThenReload | frontend/src/AuthContext.js:8-43 | a reload after signing in starts with the same user, authenticated, and an administrator exactly when that user's role is 'admin'; a reload after signing out starts with nobody, not authenticated |
| PrivateRoute.Gate | frontend/src/components/PrivateRoute.js:8-24 | loading shows the loading view whatever the user; no user redirects to /login; a non-admin on an admin-only route redirects to /; the child is shown exactly when loading is over, a user is signed in, and the route is open to them |
| PrivateRoute.GateMatchesSession | frontend/src/components/PrivateRoute.js:13-24 | an admin-only route opens exactly for a signed-in administrator, any other route for any signed-in user, once loading is over |
| PrivateRoute.AdminRoutesAreNarrower | frontend/src/components/PrivateRoute.js:18-24 | whoever may open an admin-only route may open any other |
| PrivateRoute.GateAfterLogin | frontend/src/components/PrivateRoute.js:24 | after a sign-in, the signed-in pages open |
| Config.BaseUrl | frontend/src/config.js:10 | the host and a colon, then the port's text, which reads back as the port; a negative port starts with a minus sign |
| Config.DefaultTableIsFirstPort | frontend/src/config.js:3-27 | the first port probed is the default port, and `API_ENDPOINTS` is the table built for it |
| Config.HealthUrlNamesPort | frontend/src/config.js:10-11 | the port can be read back out of its health-check URL |
| Config.HealthUrlsDiffer | frontend/src/config.js:10-11 | different ports give different health-check URLs |
| Config.ProbedServersDiffer | frontend/src/config.js:6-11 | the four ports probed give four different health-check URLs |
| Home.JsRem | frontend/src/components/Home.js:91-93 | JavaScript's `%`: the usual remainder for a non-negative dividend, and a non-positive one for a negative dividend |
| Home.NextIndex | frontend/src/components/Home.js:91-93 | the index after i, in range for any i >= -1, wrapping from the last slide to 0 |
| Home.PrevIndex | frontend/src/components/Home.js:86-88 | the index before i, in range for any i >= 1 - n, wrapping from 0 to the last slide |
| Home.PrevUndoesNext | frontend/src/components/Home.js:86-93 | back after forward, or forward after back, returns to the slide |
| Home.AdvanceWraps | frontend/src/components/Home.js:77-80 | k ticks of the timer move k slides on, wrapping round |
| Home.FullCycleReturns | frontend/src/components/Home.js:77-80 | six more ticks show the same slide: the timer comes back to every slide after a full round |
| Home.Carousel.constructor | frontend/src/components/Home.js:41 | the carousel starts at slide 0 |
| Home.Carousel.NextSlide | frontend/src/components/Home.js:91-93 | the slide becomes the next index and stays in range |
| Home.Carousel.PrevSlide | frontend/src/components/Home.js:86-88 | the slide becomes the previous index and stays in range |
| Home.Carousel.Tick | frontend/src/components/Home.js:78-80 | the timer's step is the forward step |
| Home.Carousel.GoToSlide | frontend/src/components/Home.js:95-97 | the slide becomes exactly the index given, in range exactly when the index is |
| Home.RunFullRound | frontend/src/components/Home.js:77-80 | a full round of ticks shows each slide once, in order, and ends where it began |
| Home.MedicalService.constructor | frontend/src/components/Home.js:17-21 | the three fields hold the arguments |

## Left out

**Outside the logic**
- The database and the server wiring: the MongoDB branches of every handler, the connection and seeding code, Express, CORS and `listen`. Only the in-memory branches are modelled; the add and restock handlers have none, so they are modelled as written and as corrected (see Findings).
- Finding a live server: the probing of ports in the screens is HTTP input and output. `Reports` abstracts it as `serverFound`, and the other screens start from the list they would receive.
- The browser's storage: `localStorage` and its JSON round-trip are parameters or class fields. Stored JSON that fails to parse is not modelled, and neither is the catch path of `fetchPatients`.
- Rendering: all JSX, and the `navigate` calls.
- Timers: the 5-second carousel interval appears only as `Tick`, and the `setTimeout` that clears messages is not modelled.
- Locale: `localeCompare` is the abstract rank `collate`. `toLowerCase` is ASCII-only.
- Randomness: `Math.random` is a parameter. This covers the drawn department and the user dashboard's "recently added" item.
- Number formatting: `formatNumber` and `toFixed` render text only.

**Simplified numbers and dates**
- HospitalData.RevenueStatistics: today's revenue is an exact real, so JavaScript's floating-point rounding of the `/10` fallback is not modelled.
- Dates are UTC day numbers taken from milliseconds. Time zones and `Date` parsing of ISO strings are not modelled.
- `Date.now()` ids and timestamps are parameters.
- Billing.RegistrationError: the age field is an abstract `AgeField` (blank, not a number, or the number `parseInt` gives). The text parsing itself is not modelled.

**Helpers with no rules of note**
- `getDashboardData`, `getDepartments`, `fetchReportData` and the screens' `fetchInventory`/`fetchSalesData` are fetch and assembly glue, apart from what the rows above cover.
- `generateMockBillingHistory` (built-in sample bills) is not modelled: the model starts from whatever history is stored.
- The contents of the Home page's list of nine services are not modelled; only the class is.
- The default fields that `handleAddPatient` fills in are not modelled.
- Config.CreateEndpoints, Auth.AuthProvider.IsAdmin and Auth.AuthProvider.IsAuthenticated are helpers without rows of their own. CreateEndpoints ensures that every URL starts with the base URL, and spells out five of them and the shared sale URL; the endpoint table as a whole is stated by Config.HealthUrlNamesPort and Config.DefaultTableIsFirstPort, and the two flags by Auth.LoginThenReload.

**Weaker statements and unreachable branches**
- Billing.BillingDesk.LoadPatients: the order of the merged list, first insertion per id, is defined by `Merged` but not stated as a separate property. Billing.MergeById is the same.
- BackendStore.Store.UserDashboard: `Object.keys` order decides which product is compared first. The model tallies products in order of first sale, which is the order `Object.keys` gives for these non-numeric keys.
- BackendStore.Restock: the 400 "Failed to update inventory", given when the update modified nothing, is not modelled. A quantity of at least 1 always changes the stock, so that branch cannot be taken.
- BackendStore.Store.Dashboard: its `recentSales` is the corrected list `ShownSales`, the five newest; the server as written sends the first five of the ledger (`ShownSalesAsWritten`), see Findings.
- BackendStore.Store.Add, BackendStore.Store.RestockItem: these perform the corrected handlers `AddItem` and `Restock`. As written, the handlers have no in-memory branch and answer every valid request with a 500 and no change (`AddItemAsWritten`, `RestockAsWritten`), see Findings.
- Auth.ReloadRoundTrip: `JSON.stringify` and `JSON.parse` of the user are modelled as the identity (`Persist`, `Restore`), so the lemma states only that the entry is written when a user is signed in, removed otherwise, and read back on mounting.
- Billing.RegisterStep: the form's fields are an argument, not part of the desk's state, so resetting them after a successful registration is not modelled.
- Home.MedicalService: a value holder whose getters hand back what it was built with; the constructor's contract is all there is to state.
- PatientList.DeletePatient, PatientList.UpdatePatient, PatientList.SavePatient: these change only the list on screen, as the source does. Nothing is written back to storage.
- Sales screen: the bill history is a single stored list, and the copies the screen keeps in state are not modelled separately.

## Findings

| source | as written | input that shows it | evidently intended | confidence | as-written member | corrected member |
|---|---|---|---|---|---|---|
| backend/server.js:596, 627 | the add and restock handlers call `db.collection` even in memory mode, where `db` is unset, so every valid request ends in the catch block with a 500 | adding "Thermometers" (stock 30, price 20) to the fallback catalog; restocking 2 "Ventilators" | in memory mode, append the new item (201), or add the quantity to the item's stock (200) | high (not executed) | BackendStore.AddItemAsWritten, BackendStore.AddItemAsWrittenLosesItem, BackendStore.RestockAsWritten, BackendStore.RestockAsWrittenRefuses | BackendStore.AddItem, BackendStore.AddedItemIsFound, BackendStore.Restock, BackendStore.RestockThenSell, BackendStore.Store.Add, BackendStore.Store.RestockItem |
| frontend/src/components/Reports.js:26, 44, 86-91 | each failing fetch sets the error state itself, so one failed fetch shows the error view, although the code throws only when both fail | the inventory loads and the sales fetch fails with a 500 | show the error view only when no server answers or both fetches fail | medium (not executed) | Reports.FetchAllDataAsWritten, Reports.OneFailedFetchHidesReport | Reports.FetchAllData |
| backend/server.js:430 | `recentSales.slice(0, 5)`, commented "the 5 most recent sales", takes the first five in ledger order, and in memory mode the ledger is oldest first | six sales within the last 30 days, in date order | the five newest sales | medium (not executed) | BackendStore.ShownSalesAsWritten, BackendStore.ShownSalesAsWrittenMissesNewest | BackendStore.ShownSales, BackendStore.ShownSalesAreNewest, BackendStore.ShownSalesShowsNewest, BackendStore.Store.Dashboard |

Three properties describe how the code behaves without being defects:

- `HospitalData.NewestAdmissionNotShown`: once ten patients are registered, a new admission never reaches the dashboard.
- `Billing.BillIdsRepeat`: bill ids repeat every 1,000,000 ms.
- `Billing.DeskBillsNeverDischarge`: no bill built at the desk can trigger the discharge.
