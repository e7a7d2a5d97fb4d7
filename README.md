# Workshop manager: a Dafny model

This project models the core of a single-page app for a car repair shop.
The shop registers customers and their vehicles. It opens service orders
("OS") that wait for the customer to approve a budget. It takes the
payment, by cheque installments or in one go. It keeps a ledger of incomes
and expenses, a parts inventory and per-vehicle service reports.

The model is written module by module, after the app's own files:

- `types.dfy` (`Types`): the records of `types.ts`, with the order total
  that every screen computes the same way.
- `app.dfy` (`Shell`): the state held by `App.tsx`, as a class `Workshop`
  whose methods are the handlers the screens call back.
- `budget.dfy` (`Budget`): the budget editor of `BudgetDetails.tsx`.
- `payment.dfy` (`Payment`): the payment screen of `PaymentView.tsx`.
- `finance.dfy` (`Finance`): the cash-flow screen of `FinanceView.tsx`.
  It covers the date filter, the one-pass totals, the revenue per service
  and the top four services.
- `report.dfy` (`Report`): the per-vehicle history report of `ReportView.tsx`.
- `inventory.dfy` (`Inventory`): the parts screen of `InventoryView.tsx`.
- `customers.dfy` (`Customers`): the customer and vehicle form of
  `CustomerForm.tsx`.
- `new_service.dfy` (`NewService`): the new-order form of `NewServiceForm.tsx`.
- `header.dfy` (`Header`): the name split and the cheque alerts of `Header.tsx`.
- `seqs.dfy` (`Seqs`) and `text.dfy` (`Text`): the list and string
  operations the app uses. These cover `filter`, `map` by id, `find`,
  `split`/`join`, `trim`, `toUpperCase`, `includes`, `padStart` and
  string comparison.

Modelling conventions:

- Screens and the shell, whose state React replaces step by step, are
  classes. Their handlers are methods over `seq` fields.
- Computations are functions, and the loops of the analytics are methods
  proved against those functions.
- Money is `real`. The 0.01 tolerance of the cheque check is kept as written.
- Dates are ISO strings compared code unit by code unit, as JavaScript
  compares them.
- Whatever comes from the clock, `Math.random` or the locale is a
  parameter. This covers today's date, fresh ids and the display labels
  (see `Types.Env`).
- A `parseInt`/`parseFloat`/`Number` result is an `Option`, with `None`
  standing for NaN.

## Model

| member | source | states |
|---|---|---|
| Types.ParseStatus | types.ts:4 | a stored label parses only to the status whose label it is |
| Types.StatusLabelRoundTrip | types.ts:4 | each of the six statuses reads back from its stored label |
| Types.SubtotalAppend | components/BudgetDetails.tsx:42 | the subtotal of two item lists together is the sum of their subtotals |
| Types.SubtotalPointwise | components/BudgetDetails.tsx:42 | two item lists with equal line totals, position by position, have equal subtotals |
| Seqs.Filter | App.tsx:244-246 | the kept elements are exactly those satisfying the condition, never more than the input |
| Seqs.FilterCount | components/FinanceView.tsx:36-41 | a filter keeps each passing element as often as in the input and drops every other |
| Seqs.FilterAppend | App.tsx:77-82 | filtering keeps relative order: filtering a concatenation concatenates the filtered parts |
| Seqs.FindIndex | App.tsx:238 | `find` returns the first element with the key, and nothing exactly when no element has it |
| Seqs.RemoveKey | App.tsx:306 | removing by id is the filter on a different id: it keeps exactly the elements with another id, nothing changes when the id is absent, and the list shrinks when it is present |
| Seqs.RemoveKeyAppend | App.tsx:306 | removal keeps the order of the rest: removing from two lists joined is removing from each |
| Seqs.RemoveKeyCount | App.tsx:306 | removal keeps every element with another id as often as it was there and drops every element with the id |
| Seqs.ReplaceKey | App.tsx:367 | replacing by id changes exactly the positions holding that id and keeps the length |
| Seqs.Upsert | App.tsx:460-464 | saving by id is the in-place replacement at every position holding the id when the id is known, and puts the item first otherwise |
| Seqs.RemoveKeyDistinct | App.tsx:306 | with distinct ids a removal drops at most one element and keeps the ids distinct |
| Text.Contains | components/FinanceView.tsx:58 | `includes` holds exactly when the substring occurs at some position |
| Text.Trim | components/FinanceView.tsx:81 | the trimmed text is the input with only white space dropped before and after it, has no white space at its ends, and a text already trimmed is kept |
| Text.ToUpperIdempotent | components/FinanceView.tsx:55 | upper-casing twice is upper-casing once |
| Text.JoinSplit | components/Header.tsx:16-18 | joining the pieces of a split gives back the string |
| Text.SplitPiecesFree | components/Header.tsx:16 | no piece of a split contains the separator |
| Text.SplitSingle | components/Header.tsx:17 | a string splits into one piece exactly when it does not contain the separator |
| Text.LexLeTrans | components/ReportView.tsx:29 | string order on dates is transitive |
| Text.LexLeTotal | components/ReportView.tsx:29 | any two dates are ordered one way or the other |
| Text.LexLeAntisym | components/FinanceView.tsx:39 | two dates each not after the other are equal |
| Text.PadStart | components/NewServiceForm.tsx:28 | the padded string has the width asked for (or its own length), ends with the input and holds only pad characters before it |
| Text.DecimalRoundTrip | components/NewServiceForm.tsx:28 | reading back the decimal writing of a number gives the number |
| Budget.ApplyEdit | components/BudgetDetails.tsx:59-67 | an edit changes only the named field of the item, a failed number parse giving 0 |
| Budget.UpdateItems | components/BudgetDetails.tsx:59-67 | only the items with the id are edited, at their positions |
| Budget.RemoveItemSubtotal | components/BudgetDetails.tsx:55-57 | removing the items with an id lowers the subtotal by exactly their line totals |
| Budget.RenameKeepsSubtotal | components/BudgetDetails.tsx:59-67 | renaming an item never changes the subtotal |
| Budget.BudgetEditor.constructor | components/BudgetDetails.tsx:29-36 | the editor starts from the order's items and discount, or none and 0 |
| Budget.BudgetEditor.AddItem | components/BudgetDetails.tsx:45-53 | a new empty line at the end: price 0, quantity 1, subtotal unchanged, approval enabled |
| Budget.BudgetEditor.RemoveItem | components/BudgetDetails.tsx:55-57 | the lines with the id go, and the subtotal drops by their line totals |
| Budget.BudgetEditor.UpdateItem | components/BudgetDetails.tsx:59-68 | the lines with the id take the edit; a rename keeps the subtotal |
| Budget.BudgetEditor.SetDiscount | components/BudgetDetails.tsx:172 | the discount is the parsed number, or 0 when parsing fails |
| Payment.ChequeSumEqual | components/PaymentView.tsx:31-36 | n equal installments of v add up to n × v |
| Payment.Redistribute | components/PaymentView.tsx:31-36 | every cheque gets total / count and keeps its id and date; the values add up to the total |
| Payment.MaxId | components/PaymentView.tsx:39 | the largest id is the id of some cheque and no cheque's id exceeds it |
| Payment.NextId | components/PaymentView.tsx:39 | a new cheque id is one more than the largest id in use (larger than every id, and one more than some id), and 1 for no cheques |
| Payment.ChequeTransaction | components/PaymentView.tsx:66-81 | a cheque becomes a PENDING 'Cheque' income for its value, dated on its due date, labelled i/n |
| Payment.DirectTransaction | components/PaymentView.tsx:82-96 | any other method gives one CLEARED income for the whole total, dated today |
| Payment.ChequeTransactionsSum | components/PaymentView.tsx:66-81 | the emitted cheque incomes add up to the installments' sum |
| Payment.EditCheques | components/PaymentView.tsx:163-167 | only the cheque with the id changes, in the edited field; a failed value parse gives 0 |
| Payment.PaymentForm.constructor | components/PaymentView.tsx:25-29 | the screen opens on credit card with one cheque for the whole total, due today |
| Payment.PaymentForm.SelectMethod | components/PaymentView.tsx:137-141 | choosing a method leaves the cheques alone |
| Payment.PaymentForm.AddCheque | components/PaymentView.tsx:38-46 | one more cheque, with an id above all others, then an equal split adding up to the total |
| Payment.PaymentForm.RemoveCheque | components/PaymentView.tsx:48-52 | the last cheque is never removed; otherwise the cheque goes and the rest split the total; ids stay distinct |
| Payment.PaymentForm.EditCheque | components/PaymentView.tsx:163-167 | the installment inputs edit one cheque and keep the list valid |
| Payment.PaymentForm.Finalize | components/PaymentView.tsx:57-99 | nothing is emitted exactly for a cheque payment whose sum is off and not confirmed; otherwise one PENDING income per cheque in order, adding up to the cheque sum, or one CLEARED income |
| Finance.FilterByRange | components/FinanceView.tsx:36-41 | exactly the transactions dated inside the range, both ends included |
| Finance.FilterByRangeCount | components/FinanceView.tsx:36-41 | each in-range transaction is kept as often as it occurs, every other one dropped |
| Finance.FilterByRangeAppend | components/FinanceView.tsx:36-41 | the filter keeps the ledger's order |
| Finance.ChequeRule | components/FinanceView.tsx:65-71 | a cheque income counts as realized when CLEARED, as future when PENDING, and nowhere when BOUNCED; other incomes are realized |
| Finance.IncomeSplit | components/FinanceView.tsx:50-73 | realized plus future plus lost income equals gross income, so realized plus future never exceeds it |
| Finance.BucketOf | components/FinanceView.tsx:55-63 | for each of the six buckets, exactly when an income falls in it: PIX when the upper-cased method names PIX, each later bucket when it names that method and none of the earlier ones, 'Outros' when it names none |
| Finance.PaymentBuckets | components/FinanceView.tsx:55-63 | every method the payment screen records lands in its own bucket |
| Finance.MethodTotals.Add | components/FinanceView.tsx:58-63 | adding to one bucket raises the total by that amount and leaves the other buckets alone |
| Finance.MethodTotalsSum | components/FinanceView.tsx:48-63 | the six buckets add up to the gross income of the period |
| Finance.ServiceRevenue | components/FinanceView.tsx:79-80 | a service's revenue is the amount the order was charged, except for a discount on an order without items |
| Finance.AddRevenue | components/FinanceView.tsx:82 | adding to a group raises that group by the amount and no other group |
| Finance.RevenueTable | components/FinanceView.tsx:76-84 | the revenue table is well formed: each group listed once, with a value |
| Finance.Entries | components/FinanceView.tsx:86-87 | one entry per group, in table order, with the group's value |
| Finance.AddRevenueSumOld | components/FinanceView.tsx:82 | adding to an existing group raises the table's sum by the amount |
| Finance.AddRevenueSumNew | components/FinanceView.tsx:82 | adding a new group raises the table's sum by the amount |
| Finance.RevenuePreserved | components/FinanceView.tsx:76-87 | grouping by name loses no money: the table sums to the revenue of the finished services in range |
| Finance.InsertDesc | components/FinanceView.tsx:88 | inserting into a list sorted by descending value keeps it sorted and adds exactly that entry |
| Finance.SortDesc | components/FinanceView.tsx:88 | the sort is a permutation into descending value order |
| Finance.TopServices | components/FinanceView.tsx:86-89 | at most four entries, in descending order, taken from the table |
| Finance.TopServicesDominate | components/FinanceView.tsx:86-89 | no group left out of the top four earns more than one kept |
| Finance.MaxServiceRevenueBound | components/FinanceView.tsx:91 | the bar scale is the value of some group and at least that of every group |
| Finance.TransactionTotals | components/FinanceView.tsx:44-73 | the loop's incomes, expenses, future incomes and buckets are the sums of each transaction's shares |
| Finance.Tally | components/FinanceView.tsx:50-72 | one transaction adds exactly its income, expense and future shares to the running totals and, as an income, its amount to its bucket |
| Finance.RevenueByService | components/FinanceView.tsx:76-84 | the loop builds the revenue table of the finished services in range |
| Finance.ComputeAnalytics | components/FinanceView.tsx:44-102 | balance = incomes − expenses, with every field the sum or table the loops define |
| Finance.AddExpense | components/FinanceView.tsx:104-124 | no expense without title or amount; otherwise a CLEARED expense of minus the amount, dated today |
| Finance.UpdateCheckStatus | components/FinanceView.tsx:126-131 | with a selected cheque, the same transaction with only the status changed |
| Shell.CalculateTotal | App.tsx:248-252 | 0 without a service, otherwise the order's subtotal less its discount |
| Shell.BudgetTotalCharged | App.tsx:248-252 | after the budget screen saves items and discount, the payment is for their subtotal less the discount |
| Shell.PartitionLoaded | App.tsx:77-82 | finished rows go to the history, every other row to the active list |
| Shell.PartitionIsExact | App.tsx:77-82 | every loaded row lands in exactly one list, as often as it was loaded |
| Shell.PartitionKeepsOrder | App.tsx:77-82 | the split keeps the loaded order |
| Shell.ResetFinishedCount | App.tsx:103-108 | the finished-today count survives only on the day it was stored |
| Shell.PendingChequesToday | App.tsx:243-246 | exactly the PENDING 'Cheque' transactions due today |
| Shell.Merge | App.tsx:259 | an update overwrites only the fields it names and keeps the id |
| Shell.UpdateServices | App.tsx:256-265 | only the services with the id are merged, at their positions |
| Shell.UpdateKeepsPositions | App.tsx:256-265 | an update never moves an id, so `find` finds the same position afterwards |
| Shell.FindService | App.tsx:238 | the selected service is the first active one with the id, else a finished one, and nothing exactly when neither list has it |
| Shell.UnfinishedSelectionIsActive | App.tsx:238 | while the history holds only finished orders, an unfinished selection is an active order |
| Shell.UpdatedSelection | App.tsx:256-265 | updating an open selected order keeps that order, updated, as the selection |
| Shell.Workshop.constructor | App.tsx:43-58 | dashboard, empty lists, no selection, order number 1, and the default workshop record with its name, phone, address, empty logo and logo scale 1 |
| Shell.Workshop.UpdateServiceData | App.tsx:256-265 | only the active services with the id change, and only in the updated fields |
| Shell.Workshop.Approve | App.tsx:400 | the selected order waiting for approval becomes EM ANDAMENTO and stays selected, the dashboard shows, and every other field is kept |
| Shell.Workshop.UpdateAndShow | App.tsx:400 | a service update followed by a change of screen, every other field kept |
| Shell.Workshop.UpdateItems | App.tsx:410 | the selected order takes the budget's items and discount |
| Shell.Workshop.UpdateExecution | App.tsx:425 | the selected order takes the execution text and status, whatever the status, and the view and selection are kept |
| Shell.Workshop.FinishExecution | App.tsx:267-288 | with a non-empty selected id, the selected order takes the text and status, and CONCLUÍDO leads to payment, anything else to the dashboard; with no or an empty selected id nothing changes |
| Shell.Workshop.PaymentFinish | App.tsx:290-312 | the paid order moves, finished today, to the front of the history; its transactions go first; the count grows by one |
| Shell.Workshop.Archive | App.tsx:305-306 | the finished order goes first in the history and the orders with its id leave the active list, the history stays all finished, and every other field is kept |
| Shell.Workshop.Settle | App.tsx:305-310 | the finished order goes first in the history and leaves the active list, the transactions go first, the count grows by one, and the history stays all finished |
| Shell.Workshop.StartService | App.tsx:387-393 | a new order goes first, the order number advances and the order is selected on the budget screen |
| Shell.Workshop.ServiceClick | App.tsx:343-347 | the clicked order is selected, on the budget screen while it waits for approval |
| Shell.Workshop.DeleteService | App.tsx:348-351 | no active order keeps the id; history is untouched |
| Shell.Workshop.SaveCustomer | App.tsx:360-364 | the new customer is appended |
| Shell.Workshop.UpdateCustomer | App.tsx:365-369 | the customers with the id are replaced in place |
| Shell.Workshop.DeleteCustomer | App.tsx:370-374 | the customers with the id are removed |
| Shell.Workshop.AddExpense | App.tsx:444-447 | the new expense goes first |
| Shell.Workshop.UpdateTransaction | App.tsx:448-451 | the transactions with the id are replaced in place |
| Shell.Workshop.SaveInventoryItem | App.tsx:458-465 | the item replaces the one with its id, or goes first |
| Shell.Workshop.DeleteInventoryItem | App.tsx:466-469 | the items with the id are removed |
| Shell.Workshop.SaveSettings | App.tsx:477 | the settings are replaced and the dashboard shows; lists, selection and counters are kept |
| Shell.PaymentMovesOneService | App.tsx:306 | with distinct ids, settling a payment removes exactly one active order |
| Report.Select | components/ReportView.tsx:24-28 | exactly the history entries of the plate finished inside the range, each as often as in the history |
| Report.InsertByDate | components/ReportView.tsx:29 | inserting into a newest-first list keeps it newest first and adds exactly that entry |
| Report.SortNewestFirst | components/ReportView.tsx:29 | the sort is a permutation into newest-first order |
| Report.FilteredHistory | components/ReportView.tsx:22-30 | nothing without a vehicle; otherwise the entries of its plate finished in range, newest first, none lost or added |
| Report.ReportWithinRange | components/ReportView.tsx:22-30 | the newest entry is not after the end and the oldest not before the start |
| Report.CalculateServiceTotal | components/ReportView.tsx:32-36 | the report shows the same total the order was charged |
| Report.ReportSelection.constructor | components/ReportView.tsx:15-16 | nothing is selected at first |
| Report.ReportSelection.ChangeCustomer | components/ReportView.tsx:74 | changing the customer also drops the vehicle |
| Report.ReportSelection.SelectCustomer | components/ReportView.tsx:62 | picking a customer keeps the vehicle selection |
| Report.ReportSelection.SelectVehicle | components/ReportView.tsx:87 | picking a vehicle keeps the customer |
| Inventory.EditForm | components/InventoryView.tsx:45-49 | the edit form holds every one of the item's own values: texts, both prices, quantities, location and image |
| Inventory.TextOr | components/InventoryView.tsx:68 | a missing or empty text gives the fallback |
| Types.OrZero | components/InventoryView.tsx:70 | a failed parse or NaN gives 0, any other number is kept |
| Inventory.SaveItem | components/InventoryView.tsx:62-80 | no item without a name; otherwise the edited id or a fresh one, and defaults for every missing field |
| Inventory.EditSaveRoundTrip | components/InventoryView.tsx:62-80 | opening an item and saving it unchanged gives the same item |
| Inventory.SaveIdempotent | components/InventoryView.tsx:62-80 | saving a saved item again changes nothing |
| Inventory.NewItemIsLowStock | components/InventoryView.tsx:37-43 | an item saved from the untouched new-item form is flagged low-stock |
| Inventory.FilteredItems | components/InventoryView.tsx:32-35 | exactly the items whose name or code contains the query, ignoring case |
| Inventory.EmptyQueryShowsAll | components/InventoryView.tsx:32-35 | an empty search shows the whole inventory, in order |
| Inventory.InventoryScreen.constructor | components/InventoryView.tsx:14-30 | closed dialog, new-item form, nothing to delete |
| Inventory.InventoryScreen.OpenAdd | components/InventoryView.tsx:37-43 | the dialog opens on the new-item form |
| Inventory.InventoryScreen.OpenEdit | components/InventoryView.tsx:45-49 | the dialog opens on the item's own values |
| Inventory.InventoryScreen.ConfirmDelete | components/InventoryView.tsx:51-53 | the id waits for confirmation |
| Inventory.InventoryScreen.ExecuteDelete | components/InventoryView.tsx:55-60 | only with a pending id: the shell drops the items with it and the id is cleared |
| Inventory.InventoryScreen.Save | components/InventoryView.tsx:62-80 | a nameless form saves nothing; otherwise the item is upserted and the dialog closes |
| Customers.FilteredCustomers | components/CustomerForm.tsx:63-67 | exactly the customers whose name (ignoring case), document or phone contains the query |
| Customers.EmptyQueryListsAll | components/CustomerForm.tsx:63-67 | an empty search lists every customer, in order |
| Customers.DecomposeModel | components/CustomerForm.tsx:357 | the edit form's model, all but the first word, is never longer than the stored model |
| Customers.ModelRoundTrip | components/CustomerForm.tsx:357 | with a one-word year, the edit form shows back the typed model |
| Customers.EmptyYearDropsFirstWord | components/CustomerForm.tsx:357 | with no year, the edit form drops the model's first word |
| Customers.RecoverModel | components/CustomerForm.tsx:357 | the model without the leading year, never longer than the stored text |
| Customers.RecoverModelRoundTrip | components/CustomerForm.tsx:133 | taking the year off gives back the typed model for every year, empty or not |
| Customers.ComposeNoYear | components/CustomerForm.tsx:133 | without a year the stored model is the typed model |
| Customers.ComposeWithYear | components/CustomerForm.tsx:133 | with a year, the stored model is the year, a space and the typed model |
| Customers.EditVehicleForm | components/CustomerForm.tsx:357 | the edit form holds the vehicle's own fields, with the stored model less its first word, never longer than the stored model |
| Customers.CorrectedEditVehicleForm | components/CustomerForm.tsx:357 | the corrected edit form: the vehicle's own fields, with the year taken off the model only when the model starts with it |
| Customers.BuildVehicle | components/CustomerForm.tsx:125-140 | no vehicle without plate or model; otherwise the edited or fresh id, the year joined to the model, the plate in capitals, and year, color, chassis, km and image as typed |
| Customers.EditVehicleRoundTrip | components/CustomerForm.tsx:125-140 | opening a saved vehicle and saving it unchanged gives the same vehicle, when its year was one word |
| Customers.CorrectedEditVehicleRoundTrip | components/CustomerForm.tsx:125-140 | with the corrected edit form the same holds for every year, empty or not |
| Customers.SaveCustomer | components/CustomerForm.tsx:93-115 | no save without a name; an update keeping the edited id, or a new customer with a fresh id, carrying the form's fields and vehicles |
| Customers.EditCustomerRoundTrip | components/CustomerForm.tsx:79-104 | editing a customer and saving unchanged updates it to itself |
| Customers.CustomerScreen.constructor | components/CustomerForm.tsx:17-50 | empty form, no vehicles, nothing pending |
| Customers.CustomerScreen.StartNewCustomer | components/CustomerForm.tsx:69-77 | an empty form with no vehicles |
| Customers.CustomerScreen.EditCustomer | components/CustomerForm.tsx:79-91 | the customer's fields and vehicles |
| Customers.CustomerScreen.StartNewVehicle | components/CustomerForm.tsx:332 | an empty vehicle form for a new vehicle |
| Customers.CustomerScreen.EditVehicle | components/CustomerForm.tsx:357 | the vehicle's form, with the model's first word dropped; the customer form and the pending deletions are kept |
| Customers.CustomerScreen.SaveVehicle | components/CustomerForm.tsx:125-151 | an edited vehicle is replaced in place, a new one appended; an incomplete form changes nothing |
| Customers.CustomerScreen.StoreVehicle | components/CustomerForm.tsx:143-150 | the vehicle replaces the one being edited in place, or is appended, and the vehicle form is emptied and closed |
| Customers.CustomerScreen.AskDeleteVehicle | components/CustomerForm.tsx:364 | the vehicle waits for confirmation |
| Customers.CustomerScreen.ConfirmDeleteVehicle | components/CustomerForm.tsx:407 | exactly the vehicles with the pending id go |
| Customers.CustomerScreen.Save | components/CustomerForm.tsx:93-115 | the shell updates the edited customer or appends the new one; a nameless form changes nothing |
| Customers.CustomerScreen.AskDeleteCustomer | components/CustomerForm.tsx:202 | the customer waits for confirmation |
| Customers.CustomerScreen.ConfirmDeleteCustomer | components/CustomerForm.tsx:231 | the shell drops the customers with the pending id and shows the dashboard; every other field of the shell and the screen is kept |
| NewService.OrderId | components/NewServiceForm.tsx:28 | the order id is at least two digits and reads back as the order number, so numbers and ids correspond one to one |
| NewService.DistinctNumbersDistinctIds | components/NewServiceForm.tsx:28 | two different order numbers never give the same id |
| NewService.OrderImage | components/NewServiceForm.tsx:35 | the vehicle's picture, or the default one when it has none |
| NewService.HandleFinish | components/NewServiceForm.tsx:21-39 | no order while customer, vehicle, description or mileage is missing; otherwise an order for them, waiting for approval, with no budget |
| NewService.FilteredCustomers | components/NewServiceForm.tsx:41-46 | no suggestions for an empty query; otherwise the customers whose name (ignoring case) or document contains it |
| NewService.DocumentFindsCustomer | components/NewServiceForm.tsx:41-46 | typing a customer's full document always offers that customer |
| NewService.NewServiceScreen.constructor | components/NewServiceForm.tsx:13-18 | nothing selected and nothing typed |
| NewService.NewServiceScreen.SelectCustomer | components/NewServiceForm.tsx:94-97 | the customer is selected and the search box emptied |
| NewService.NewServiceScreen.ClearCustomer | components/NewServiceForm.tsx:126 | clearing the customer clears the vehicle too |
| NewService.NewServiceScreen.SelectVehicle | components/NewServiceForm.tsx:144 | a vehicle of the selected customer is selected |
| NewService.NewServiceScreen.ClearVehicle | components/NewServiceForm.tsx:175 | the vehicle is cleared and the customer kept |
| NewService.NewServiceScreen.Finish | components/NewServiceForm.tsx:21-39 | a complete form opens the order first in the shell's list, advances the number and selects it; an incomplete one changes nothing |
| Header.LastPiece | components/Header.tsx:16-18 | the last piece has no separator, is the whole string without one, and follows the rest after one separator |
| Header.SplitName | components/Header.tsx:16-18 | one word shows alone; otherwise the two lines, joined by a space, give back the name, and the second is the last word |
| Header.TwoWordName | components/Header.tsx:16-18 | a name of two words shows as those two words |
| Header.AlertsIffChequeDueToday | components/Header.tsx:20 | the bell alerts exactly when some cheque is pending and due today |
| Header.ChequeLabel | components/Header.tsx:99 | the label has no ':' and is the whole title when the title has none |
| Header.PaymentChequeLabel | components/Header.tsx:99 | a payment cheque shows its vehicle and customer |

## Left out

- Persistence is not modelled: the Supabase reads and writes, `localStorage`,
  authentication and the settings save effect. Each handler is modelled by its
  effect on the local state only.
- The load-time migration from `localStorage` (App.tsx:110-153) is not
  modelled beyond the row split and the daily count reset. It is I/O.
- Clock, randomness and locale are parameters: today's date, fresh ids,
  `toLocaleTimeString` and `toLocaleDateString`. Their formats are not
  modelled.
- Only the Latin-1 range is case-mapped in `Text.ToUpper`/`ToLower`.
  `toUpperCase` maps more characters. `localeCompare` on dates is taken as
  code-unit order, which agrees with it on `YYYY-MM-DD` strings.
- Floating point is not modelled: money is `real`, so there is no rounding.
  NaN is modelled only where the code replaces it with `|| 0`.
- Finance.AddExpense: the parsed amount is taken as a number. An amount text
  that `parseFloat` rejects would give a NaN amount, which is not modelled.
- Report.SortNewestFirst: the order among entries finished on the same day
  is not stated; JavaScript's stable sort keeps their history order.
- Finance.SortDesc: ties between groups are not ordered. The object-key
  order of `Object.entries` (integer-like keys first) is not modelled
  either, so the top four are stated up to ties.
- Finance.ServiceRevenue: for an order with a discount but no items, the
  finance screen counts minus the discount while the shell charges 0. The
  contract states both cases. The budget screen always saves items and
  discount together, so the screens never produce such an order.
- The pie chart and the dominant-method label of the finance screen are
  presentation; the bucket totals they are drawn from are modelled.
- `formatDateForDisplay` and the period label are presentation.
- Shell.Workshop.FinishExecution: the status is not restricted, although
  the execution screen sends only CONCLUÍDO through this path. The
  execution screen itself (components/ServiceExecution.tsx) is not part of
  this model.
- Budget printing and sharing (`window.print`) are left out: they are I/O.
- Image uploads through `FileReader` are left out: they are I/O. An image
  URL is an ordinary optional text field.
- The `setTimeout` delay of the customer save is left out; the save is
  modelled as immediate.
- The notification preferences of the customer form are not modelled. They
  are never stored in the customer record.
- Payment.PaymentForm.Finalize: the browser's confirm dialog is a boolean
  parameter.
- The due dates of new cheques (`getFormattedDate`) are parameters: month
  arithmetic on `Date` is not modelled.
- Screen navigation outside the handlers (back buttons, tabs, the bottom
  bar) is not modelled; the view is kept only where a handler sets it.

## Findings

| source | as written | input that shows it | evidently intended | confidence | as-written member | corrected member |
|---|---|---|---|---|---|---|
| components/CustomerForm.tsx:357 | the edit form shows the stored model without its first space-separated word, taking that word to be the year | a vehicle saved with an empty year and model 'Gol G5' is stored as 'Gol G5'; editing it shows 'G5', and saving again stores 'G5' | take the year off only when the stored model starts with it, so every save gives back the typed model | high, not executed | Customers.EmptyYearDropsFirstWord | Customers.CorrectedEditVehicleRoundTrip |

The screen model (`Customers.EditVehicleForm`, used by
`Customers.CustomerScreen.EditVehicle`) is the code as written, on
`Customers.DecomposeModel`. `Customers.ModelRoundTrip` and
`Customers.EditVehicleRoundTrip` show that it is right whenever the year is
one word. The corrected form, `Customers.CorrectedEditVehicleForm` on
`Customers.RecoverModel`, is defined beside it, and
`Customers.CorrectedEditVehicleRoundTrip` proves the round trip for every
year.
