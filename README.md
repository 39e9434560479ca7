# Rental manager: bookkeeping model

A Dafny model of the rental and stock bookkeeping of an equipment rental and
sales shop. The web client keeps customers, inventory items, rentals, sales,
payments and notes in an in-memory store (`services/mockDb.ts`). The React
screens compute figures from that store and edit item carts before saving:
- the dashboard counters;
- the report windows and transaction list;
- the customer statistics and search;
- the rental and sale forms.

Two Laravel controllers implement rental creation, returns and sales again on
the server, with rules that differ from the client's.

The model and its modules:

- Dates are whole day numbers and money is integer amounts.
- The current day, the current instant and every fresh id are parameters.
- **Types**: the records of `types.ts`, plus the generic find-first, filter and sum that the JavaScript code gets from `Array.prototype`.
- **Ledger**: the rules that several screens share:
  - the rental day count and total;
  - the available stock of an item;
  - the Overdue status shown on read;
  - the return rule;
  - what has been paid on a rental.
- **MockDb**: the client store.
  - The store is a class `Store` whose fields are the six collections.
  - Each exported operation is a method proved against the functions in Ledger.
  - `getAvailableStock` and the sale check keep their loops.
- **Reports**, **CustomersView**, **RentalsView**, **SalesView**, **Dashboard**: the screens' computations.
  - Shared cart editing is in **Cart**.
  - The two forms are classes whose fields are the form state.
- **ServerDb**, **RentalApi**, **SaleApi**: the server tables and the two controllers.
  - Validation failures, a missing rental and a stock shortfall are error results.
  - Lemmas contrast the server's rules with the client store's.

## Model

| member | source | states |
|---|---|---|
| Ledger.RentalDays | services/mockDb.ts:93-96 | the days charged are the distance between the two dates, and 1 when they coincide; never below 1 |
| Ledger.RentalDaysSymmetric | services/mockDb.ts:95 | the day count does not depend on the order of the two dates |
| Ledger.RentalTotalIsDaysTimesRate | services/mockDb.ts:98-100 | RentalTotal, Σ rate × quantity × days, equals days × the rental's daily rate |
| Ledger.RentalTotalNonNegative | services/mockDb.ts:98-100 | a rental of non-negative rates and quantities has a non-negative total |
| Ledger.Available | services/mockDb.ts:252-270 | available stock is 0 for an unknown item, otherwise max(0, total quantity − unreturned quantity of the item on rentals that are not Returned); never negative |
| Ledger.OutstandingNonNegative | services/mockDb.ts:261-267 | with non-negative line quantities, the rented quantity is not negative |
| Ledger.OverdueView | services/mockDb.ts:67-87 | getRentals keeps length, order and every field but status; a Returned rental is unchanged; another one past its expected day is shown Overdue, otherwise as stored |
| Ledger.ShownStatus | services/mockDb.ts:75-86 | a Returned rental stays Returned; a rental is shown Overdue iff it is stored Overdue or is not Returned and past its expected day; otherwise its stored status is shown |
| Ledger.OverdueViewIdempotent | services/mockDb.ts:67-87 | deriving the shown statuses twice changes nothing more |
| Ledger.RentedQtyOverdueView | services/mockDb.ts:258-267 | RentedQty, the unreturned quantity on rentals not Returned, is the same before and after the Overdue derivation |
| Ledger.Deduct | services/mockDb.ts:180 | deducting one sale line changes only the total quantity of an item |
| Ledger.DeductAll | services/mockDb.ts:169-181 | deducting all the lines keeps the inventory's length and changes only total quantities |
| Ledger.DeductAllAt | services/mockDb.ts:169-181 | after all lines are deducted, the first entry with an id has lost the quantities of every line naming it, and no other entry has changed |
| Ledger.QtyForSingle | services/mockDb.ts:169-181 | with one line per item, the quantity deducted from an item is its line's quantity |
| Ledger.ItemNameOrUnknown | services/mockDb.ts:196 | a line's name is the first matching item's name when that is non-empty, and "Unknown" otherwise, including for an unknown item |
| Ledger.MarkReturned | services/mockDb.ts:123-128 | exactly the lines whose item id is listed become returned, each stamped with the return time; other lines and other fields are unchanged |
| Ledger.NextStatus | services/mockDb.ts:130-148 | Returned iff every line is returned (or it was Returned); Partial Return iff not all are returned and it was Partial or Active with some returned; Overdue is kept while lines are out; Active stays Active only if nothing is returned |
| Ledger.ApplyReturn | services/mockDb.ts:150-154 | the rental written back differs only in its lines (MarkReturned) and its status (NextStatus) |
| Ledger.RentalPayments | services/mockDb.ts:230-232 | getRentalPayments keeps exactly the payments tagged with the rental |
| Ledger.RentalDueAfterPayment | components/Rentals.tsx:280-281 | RentalDue, the total less PaidFor, drops by a payment's amount when the payment is tagged with the rental |
| Ledger.PaidForIgnoresOthers | components/Customers.tsx:96 | PaidFor, the sum over payments tagged with a rental, does not change for payments tagged with other rentals |
| MockDb.MergeCustomer | services/mockDb.ts:26-29 | an existing customer keeps its id and creation time and takes every form field |
| MockDb.NewCustomer | services/mockDb.ts:29-33 | a customer saved without an id has the fresh id, the creation time and every form field |
| MockDb.MergeItem | services/mockDb.ts:53-55 | an existing item keeps its id and takes every form field |
| MockDb.NewItem | services/mockDb.ts:56 | an item saved without an id has the fresh id and every form field |
| MockDb.NewRental | services/mockDb.ts:102-108 | a saved rental is Active, with the given id, fields and lines, and total days × daily rate |
| MockDb.RemoveId | services/mockDb.ts:39-42 | delete keeps exactly the records whose id differs |
| MockDb.RemoveIdAbsent | services/mockDb.ts:61-64 | deleting an id no record has changes nothing |
| MockDb.RemoveIdAppend | services/mockDb.ts:246-249 | delete works record by record, so the records kept stay in order |
| MockDb.LineError | services/mockDb.ts:169-178 | a line fails with "Item not found" iff no item has its id; it passes iff its item exists and its quantity is at most the available stock; otherwise it fails with the item's name and the available stock |
| MockDb.FirstSaleErrorIsLineError | services/mockDb.ts:169-182 | a refused sale is refused with the error of one of its own lines |
| MockDb.FirstSaleErrorPrefix | services/mockDb.ts:169-182 | once a line fails, the sale fails with the first failing line's error |
| MockDb.FirstSaleErrorNone | services/mockDb.ts:169-182 | a sale passes its check exactly when every line passes its own check |
| MockDb.SaleKeepsRentedStock | services/mockDb.ts:169-181 | a sale that passes, with one line per item, leaves each sold item with at least the quantity out on rentals |
| MockDb.RepeatedLinesOversell | services/mockDb.ts:169-181 | two lines of 3 for an item with 5 in stock both pass, and the stored quantity becomes −1 |
| MockDb.SaleLines | services/mockDb.ts:193-202 | every recorded line keeps the item, quantity and price and has total price × quantity |
| MockDb.SaleTotalIsSumOfLines | services/mockDb.ts:186-190 | SaleTotal, Σ price × quantity, is the sum of the recorded line totals |
| MockDb.Store.constructor | services/mockDb.ts:17-20 | a store with nothing saved yields no records from any getter |
| MockDb.Store.SaveCustomer | services/mockDb.ts:22-37 | with an id, merge into the first customer with it or change nothing; without one, append a new customer |
| MockDb.Store.DeleteCustomer | services/mockDb.ts:39-43 | the customers become those with a different id |
| MockDb.Store.SaveInventoryItem | services/mockDb.ts:50-59 | the same upsert for inventory items |
| MockDb.Store.DeleteInventoryItem | services/mockDb.ts:61-65 | the items become those with a different id |
| MockDb.Store.SaveRental | services/mockDb.ts:89-113 | the statuses shown today are written back and the new Active rental is appended; what getRentals shows gains exactly that rental, with the status it is shown in |
| MockDb.Store.UpdateRentalStatus | services/mockDb.ts:115-157 | an unknown id changes nothing; otherwise the shown rentals are written back with that one rental updated by ApplyReturn |
| MockDb.Store.GetAvailableStock | services/mockDb.ts:252-270 | the nested loops compute Available over the rentals as shown today |
| MockDb.Store.CheckAndDeduct | services/mockDb.ts:166-181 | the check loop returns the first failing line's error, or the inventory with every line deducted |
| MockDb.Store.SaveSale | services/mockDb.ts:165-217 | a failing sale changes nothing; a passing one deducts the stock, appends the sale with total Σ price × quantity, and appends one payment of that total tagged with the sale |
| MockDb.Store.AddPayment | services/mockDb.ts:224-228 | a payment is appended with a fresh id |
| MockDb.Store.AddNote | services/mockDb.ts:240-244 | a note is put first |
| MockDb.Store.DeleteNote | services/mockDb.ts:246-249 | the notes become those with a different id |
| Reports.MonthIndexExamples | components/Reports.tsx:90 | MonthIndex gives the calendar month of a day number: 1 January and 1 March 1970 |
| Reports.WindowsContainToday | components/Reports.tsx:86-90 | today lies in all three windows; a day of today lies in the week and the month; the week admits every later day |
| Reports.CalculateStats | components/Reports.tsx:92-112 | dueFromRent, a sum of amounts clamped at 0, is never negative |
| Reports.EmptyWindowHasNoFigures | components/Reports.tsx:92-112 | a window admitting no day gives four zero figures |
| Reports.DueFromRentAtMostRentGenerated | components/Reports.tsx:94-109 | with non-negative amounts, dueFromRent is at most rentGenerated |
| Reports.PaidForNonNegative | components/Reports.tsx:107 | with non-negative amounts, what is paid on a rental is not negative |
| Reports.RentGeneratedAfterNewRental | components/Reports.tsx:94-95 | a new rental adds its total to rentGenerated exactly when its rent date is in the window |
| Reports.PaymentsReceivedAfterPayment | components/Reports.tsx:102-103 | a new payment adds its amount to paymentsReceived exactly when its date is in the window |
| Reports.PaymentsReceivedBySource | components/Reports.tsx:102-103 | paymentsReceived counts rental, sale and untagged payments alike |
| Reports.WiderWindowReceivesMore | components/Reports.tsx:92-103 | a window containing another receives at least as much when amounts are non-negative |
| Reports.DailyWithinWeeklyAndMonthly | components/Reports.tsx:86-90 | today lies in this week (which has no upper bound) and this month, so daily receipts are at most weekly and monthly ones |
| Reports.SourceOf | components/Reports.tsx:41-51 | a payment with a rentalId is a rental payment even when it has a saleId; otherwise a saleId makes it a sale payment; otherwise it is Other |
| Reports.ShortRef | components/Reports.tsx:44 | the reference is "#" followed by the first six characters of the id, or the whole id when shorter |
| Reports.Enrich | components/Reports.tsx:36-58 | the enriched payment keeps the payment and its source; a rental or sale payment reads "#" and the first six characters of the record's id and its customer name (or "Unknown"), or "Unknown" twice for an unknown record; an Other payment reads "-" and "Unknown" |
| Reports.EnrichAll | components/Reports.tsx:36-58 | one enriched entry per payment, in the payments' order |
| Reports.Insert | components/Reports.tsx:59 | inserting into a newest-first list keeps it newest first and adds exactly the element |
| Reports.SortNewestFirst | components/Reports.tsx:59 | the sorted list is newest first and a permutation of its input |
| Reports.Transactions | components/Reports.tsx:36-61 | the transaction list is newest first, as long as the payments, and a permutation of the enriched payments |
| Reports.TransactionsArePaymentsNewestFirst | components/Reports.tsx:36-59 | the transaction list is a permutation of the enriched payments, newest first, and each entry is its payment enriched |
| CustomersView.CustomerRentals | components/Customers.tsx:88 | a customer's rentals are exactly the rentals with that customer id |
| CustomersView.GetCustomerStats | components/Customers.tsx:87-105 | totalRentals is the number of the customer's rentals, totalSpent their billed total, totalDue that total less what is paid on them, not clamped |
| CustomersView.CustomerDueIsSumOfRentalDues | components/Customers.tsx:96-103 | the customer's due is the sum of the dues of their rentals |
| CustomersView.PaidForRentalsIgnoresOthers | components/Customers.tsx:96 | payments naming none of the customer's rentals, sale payments included, do not change the figures |
| CustomersView.OverpaymentGivesNegativeDue | components/Customers.tsx:103 | 100 billed and 150 paid give a due of −50 |
| CustomersView.Lower | components/Customers.tsx:108 | lower-casing keeps the length and lowers each ASCII capital |
| CustomersView.ContainsIffOccurs | components/Customers.tsx:108-109 | `includes` holds exactly when the term occurs at some position |
| CustomersView.FilterCustomers | components/Customers.tsx:107-110 | the search keeps a customer iff it Matches: the lower-cased name contains the lower-cased term or the phone contains the term |
| CustomersView.EmptySearchKeepsEveryone | components/Customers.tsx:107-110 | an empty search keeps every customer in order |
| Cart.AddLine | components/Rentals.tsx:62-73 | an unknown item or one already in the cart leaves the cart unchanged; another item is appended with quantity 1 and its starting price |
| Cart.AddLineContains | components/Sales.tsx:39-48 | after adding, the item is in the cart iff it is a known item or was there already |
| Cart.SpliceStart | components/Rentals.tsx:77 | splice's start: a negative index counts back from the end, an index past the end is the end |
| Cart.RemoveAt | components/Rentals.tsx:75-79 | removing at a position in range drops exactly that entry and keeps the rest in order; a position out of range changes nothing |
| Cart.RemoveAtMultiset | components/Sales.tsx:50-54 | removal at a valid index takes out exactly that one entry |
| Cart.RemoveAtKeepsDistinct | components/Sales.tsx:50-54 | removing keeps the cart's items distinct |
| Cart.SetQuantity | components/Rentals.tsx:81-86 | only the quantity of the entry at the index changes |
| Cart.SetPrice | components/Sales.tsx:56-60 | only the price of the entry at the index changes |
| Cart.SetQuantityAmount | components/Sales.tsx:89 | a new quantity changes the cart amount by price × the change in quantity |
| RentalsView.CalculateTotal | components/Rentals.tsx:52-60 | the estimate is 0 while either date is empty, otherwise days (at least 1) × Σ price × quantity |
| RentalsView.SubmitLines | components/Rentals.tsx:102-111 | every saved line keeps the cart's item, quantity and price, takes the inventory name or "Unknown", and is not returned |
| RentalsView.CheckSubmit | components/Rentals.tsx:88-112 | an empty required field, a quantity below 1, an empty cart and an unknown customer are refused in that order, each exactly in its case; otherwise the input names the selected customer and carries the dates and the snapshot lines |
| RentalsView.SubmitLinesDailyCharge | components/Rentals.tsx:102-111 | the saved lines' daily charge equals the cart's amount |
| RentalsView.EstimateIsSavedTotal | components/Rentals.tsx:52-60 | the estimate shown is the total saveRental stores for the submitted rental |
| RentalsView.SubmittedRentalNonNegative | components/Rentals.tsx:234 | with non-negative rates, a rental the form submits has non-negative lines and a non-negative total |
| RentalsView.FilterRentals | components/Rentals.tsx:436-440 | the list keeps exactly the rentals the selected filter admits |
| RentalsView.FilterButtonSelectsStatus | components/Rentals.tsx:436-440 | each status button, with 'Partial' for Partial Return, shows exactly the rentals in that status |
| RentalsView.FilterAllShowsEverything | components/Rentals.tsx:437 | 'all' shows every rental in order |
| RentalsView.RentalForm.constructor | components/Rentals.tsx:23-28 | a new form has no customer, today's issue date, no return date and an empty cart |
| RentalsView.RentalForm.AddItem | components/Rentals.tsx:62-73 | the cart becomes AddLine with the daily rent price and stays free of duplicates |
| RentalsView.RentalForm.RemoveItem | components/Rentals.tsx:75-79 | the cart becomes RemoveAt and stays free of duplicates |
| RentalsView.RentalForm.UpdateItemQty | components/Rentals.tsx:81-86 | the cart becomes SetQuantity |
| RentalsView.RentalForm.Submit | components/Rentals.tsx:88-122 | a refused submit changes nothing; an accepted one saves a rental whose total is the estimate shown and resets the form |
| SalesView.SalePrice | components/Sales.tsx:46 | a new sale line starts at the selling price, or 0 without one |
| SalesView.UpdateLine | components/Sales.tsx:56-60 | only the named field of the entry at the index changes |
| SalesView.CartTotalNonNegative | components/Sales.tsx:89 | the cart total is not negative for non-negative prices and quantities |
| SalesView.ResolveCustomerName | components/Sales.tsx:69-73 | a resolved customer's non-empty name, else the typed name, else "Guest Customer"; never empty |
| SalesView.CheckSubmit | components/Sales.tsx:62-81 | a missing date, a line whose quantity is not between 1 and the available stock or whose price is negative, and an empty cart are refused in that order, each exactly in its case; otherwise the input carries the cart, the date, the resolved name and the id |
| SalesView.AcceptedCartSells | components/Sales.tsx:171-177 | a cart the form submits passes saveSale's stock check and has a non-negative total |
| SalesView.SaleForm.constructor | components/Sales.tsx:17-22 | a new form is a walk-in sale dated today with an empty cart |
| SalesView.SaleForm.SelectCustomer | components/Sales.tsx:109 | choosing a customer clears the typed name |
| SalesView.SaleForm.AddItem | components/Sales.tsx:39-48 | the cart becomes AddLine with SalePrice and stays free of duplicates |
| SalesView.SaleForm.RemoveItem | components/Sales.tsx:50-54 | the cart becomes RemoveAt and stays free of duplicates |
| SalesView.SaleForm.UpdateItem | components/Sales.tsx:56-60 | the cart becomes UpdateLine and stays free of duplicates |
| SalesView.SaleForm.Reset | components/Sales.tsx:82 | after a recorded sale the form is a walk-in sale dated today with an empty cart |
| SalesView.SaleForm.Submit | components/Sales.tsx:62-87 | a refused form changes nothing; an accepted one records the sale with the cart total, which is not negative, deducts the stock, appends the payment and resets the form |
| Dashboard.ComputeStats | components/Dashboard.tsx:31-61 | the counts are the collection sizes; itemsRented is the unreturned quantity on Active and Overdue rentals; overdueCount counts Overdue rentals; todaysIncome sums today's payments |
| Dashboard.ItemsRentedPlusPartial | components/Dashboard.tsx:37-46 | ItemsRented leaves out the pieces on Partial Return rentals; together they are all the pieces out on open rentals |
| Dashboard.LateRentalsCounted | components/Dashboard.tsx:37-38 | a rental past its day and not Returned counts as out and as overdue, even when stored as Partial Return |
| Dashboard.ShownPartialIsNotLate | components/Dashboard.tsx:37 | a rental still shown as Partial Return is not past its expected day |
| Dashboard.TodaysIncomeIsDailyReceipts | components/Dashboard.tsx:49-52 | TodaysIncome is the daily payments received of the Reports screen |
| RentalApi.Duration | backend/app/Http/Controllers/Api/RentalController.php:41 | the server charges max(1, day difference) days, the client's day count |
| RentalApi.SnapshotLine | backend/app/Http/Controllers/Api/RentalController.php:48-53 | a line row takes the item's current name and daily rent price and the request's quantity, and starts unreturned |
| RentalApi.SnapshotLines | backend/app/Http/Controllers/Api/RentalController.php:43-54 | one row per request line, in order |
| RentalApi.NewServerRental | backend/app/Http/Controllers/Api/RentalController.php:31-56 | a new rental is Active with the snapshot lines and total duration × Σ server rate × quantity |
| RentalApi.PriceLines | backend/app/Http/Controllers/Api/RentalController.php:40-54 | the loop builds the snapshot rows and their total |
| RentalApi.Store | backend/app/Http/Controllers/Api/RentalController.php:18-59 | an invalid request writes nothing; a valid one appends the new rental |
| RentalApi.ServerTotalIsClientEstimate | backend/app/Http/Controllers/Api/RentalController.php:41-56 | when the cart's prices are the inventory rates, the server total is the client's estimate |
| RentalApi.ServerReturn | backend/app/Http/Controllers/Api/RentalController.php:85-94 | exactly the listed lines become returned; the status is Returned iff none is left out, else Partial Return |
| RentalApi.ReturnItems | backend/app/Http/Controllers/Api/RentalController.php:78-97 | an unknown rental is 404 and an empty or unknown item list fails validation, both without change; otherwise only that rental is updated |
| RentalApi.ServerReturnVersusClient | backend/app/Http/Controllers/Api/RentalController.php:89-94 | for a rental not yet Returned, server and client close it together; where the client keeps Active, Overdue or Partial the server writes Partial Return |
| RentalApi.OverdueReturnDiffers | backend/app/Http/Controllers/Api/RentalController.php:89-94 | an Overdue rental with one of two lines returned stays Overdue on the client and becomes Partial Return on the server |
| SaleApi.ComputeTotal | backend/app/Http/Controllers/Api/SaleController.php:31-34 | the sale total is Σ price × quantity |
| SaleApi.SequentialDeduct | backend/app/Http/Controllers/Api/SaleController.php:43-50 | a successful check only lowers total quantities |
| SaleApi.SaleRow | backend/app/Http/Controllers/Api/SaleController.php:52-58 | a sale row has the item's name, unit price = price and total = price × quantity |
| SaleApi.ServerSaleLinesTotal | backend/app/Http/Controllers/Api/SaleController.php:52-58 | the rows add up to the sale total |
| SaleApi.CheckStock | backend/app/Http/Controllers/Api/SaleController.php:43-59 | the loop checks each line against the current, already decremented stock and stops at the first shortfall |
| SaleApi.FailedPrefix | backend/app/Http/Controllers/Api/SaleController.php:47-49 | the first shortfall decides the outcome |
| SaleApi.Store | backend/app/Http/Controllers/Api/SaleController.php:18-63 | an invalid request or a shortfall changes nothing (the transaction rolls back); otherwise stock is decremented and the sale recorded |
| SaleApi.SequentialDeductIsDeductAll | backend/app/Http/Controllers/Api/SaleController.php:50 | on success each item's quantity drops by exactly its lines' quantities |
| SaleApi.SequentialDeductKeepsStockNonNegative | backend/app/Http/Controllers/Api/SaleController.php:47-50 | the server never takes stock below zero |
| SaleApi.SequentialDeductIffEnoughStock | backend/app/Http/Controllers/Api/SaleController.php:47-49 | with one line per item, a sale passes iff every line is within its item's total quantity |
| SaleApi.ServerRefusesRepeatedLines | backend/app/Http/Controllers/Api/SaleController.php:47-50 | the two lines of 3 against 5 in stock that the client lets through are refused by the server |
| SaleApi.ServerSellsRentedStock | backend/app/Http/Controllers/Api/SaleController.php:47 | the server checks total quantity, not availability: it sells 3 of 5 while 4 are rented out, which the client refuses |

## Left out

- Persistence in localStorage and the JSON round trip are not modelled. The store is in-memory sequences, and each getter is a plain read.
- `generateId` and the server's UUIDs are not modelled. Every new record's id is a parameter.
- Clocks and calendar handling are not modelled:
  - `new Date()`, ISO strings, `toDateString`, time zones and the time of day are abstracted to whole day numbers and a `today` parameter.
  - The week window therefore starts at the day seven days back, not at the same time of day.
  - The dashboard's `startsWith(today)` on the payment's timestamp string becomes day equality.
- Carbon's `diffInDays` is taken as the absolute day difference. Newer Carbon releases return a signed difference.
- Money is modelled as integers. The forms' `Number(...)`, `parseInt` and `parseFloat` values and the server's decimals are floating point or fixed point.
- Lower-casing covers ASCII letters only. JavaScript's `toLowerCase` folds all of Unicode.
- Parts of the user interface are not modelled:
  - the JSX rendering;
  - `alert` and `confirm`;
  - navigation;
  - the payment and return dialogs of the Rentals screen, which only forward to `addPayment` and `updateRentalStatus`;
  - the note form of the Reports screen, which forwards to `addNote` and `deleteNote`.
- The HTML `required`, `min` and `max` attributes of the forms' inputs are modelled as errors checked before the handlers run: `MissingField`/`MissingDate`, `BadQuantity` for the rental form, and `BadLine` for the sale form.
- The rental form's quantity `max` (available stock plus the line's own quantity) is not a separate check. Available stock is never negative, so this bound never refuses a quantity.
- Cart.SetQuantity: requires an index in range. Out of range, the rental handler throws on `undefined`, and the sale handler stores a partial line at that index.
- RentalsView.RentalForm.UpdateItemQty: the handler assigns into a line object shared with the previous state, and that aliasing is not modelled.
- Reports.SortNewestFirst: does not prove the sort stable. Insert places an element before the first one that is not newer, but the property is not stated.
- The rental_items migration is not part of this model. A new server line is taken to start unreturned.
- Authentication, routing, and the database transaction machinery are not modelled. A controller action is one all-or-nothing step.
- A sale on the server creates no payment, as in its source. The model reflects this.
- The client `saveSale` checks each line against the stock stored before the sale. Repeated lines for one item can therefore oversell (MockDb.RepeatedLinesOversell). The model keeps this behaviour as written, because the forms never submit two lines for one item.
