# Hospital management: ledger and screen rules

A Dafny model of the core of a hospital management web application. Its
React front end keeps all data in one reducer (`AppReducer` in
`context/AppContext.tsx`), and its screens compute what they show and what
they dispatch.

The model covers:

- **The inventory and billing ledger.** These are the reducer branches
  for bills (add, approve, finalize, cancel, return), goods receipts,
  inventory master edits and requisitions. They keep the audit log, in which
  every command prepends its entries to the log.
- **The smaller reducer branches.** These are salary-slip de-duplication,
  roster replacement on approval, and the routing of a visit after a
  consultation.
- **The screen rules that build the ledger's inputs.**
  - Billing: totals, line pricing, the stock check, approval routing,
    return clamping and refunds, and which actions are offered.
  - Purchase orders and goods receipts: validation and prefill.
  - The inventory screen: roll-up, status badges, filtering, and the item
    edit form.
- **Small self-contained algorithms.**
  - Levenshtein distance and the fuzzy matcher.
  - Appointment slot generation, booked slots and low stock.
  - The doctor's weekly calendar.
  - Availability editing.
  - Employee ids, two-stage approval, the roster planner and payslips.
  - Patient timers, counters, pincode lookup and bed assignment.

Representation:

- Money is `real`, so amounts are exact. Stock, reorder levels and ordered
  quantities are `int`; the fractional values some forms accept are listed
  under "Left out".
- Dates and expiries are ISO strings. An expiry is either a `YYYY-MM-DD` day
  from a date input, read as midnight UTC of that day, or a full
  `YYYY-MM-DDTHH:MM:SS.sssZ` timestamp from `toISOString`, which every seeded
  batch carries. Both compare as the instant they denote; anything else is an
  Invalid Date, and every comparison involving it is false.
- Ids, timestamps, "today" and the signed-in user (`actor`) are parameters.
- JavaScript objects whose key order matters are association lists.

Form of the model:

- **Reducer branches.** Each branch that deep-copies the inventory and
  updates it in loops is a method with those loops. That method is proved
  equal to a pure function (`Ledger.AfterAddBill`, `Receipt.MergeAll`,
  `Fefo.FulfilAll`, and the others), and the properties are proved about
  that function.
- **Forms with local state.** These are classes whose methods update the
  fields: the inventory edit form, the goods-receipt form and the roster
  planner.
- **Levenshtein distance.** This keeps its `costs` array.

Modules and files:

| module | file |
|---|---|
| `Wrappers` | `wrappers.dfy` |
| `Model` | `model.dfy` |
| `Seqs` | `seqs.dfy` |
| `Text` | `text.dfy` |
| `Dates` | `dates.dfy` |
| `Stock` | `stock.dfy` |
| `Receipt` | `receipt.dfy` |
| `Fefo` | `fefo.dfy` |
| `Ledger` | `ledger.dfy` |
| `Reducer` | `reducer.dfy` |
| `Billing` | `billing.dfy` |
| `Procurement` | `procurement.dfy` |
| `InventoryView` | `inventory_view.dfy` |
| `Fuzzy` | `fuzzy.dfy` |
| `Scheduling` | `scheduling.dfy` |
| `DoctorDay` | `doctor_day.dfy` |
| `Dashboard` | `dashboard.dfy` |
| `Calendar` | `calendar.dfy` |
| `Availability` | `availability.dfy` |
| `Employees` | `employees.dfy` |
| `Patients` | `patients.dfy` |

## Model

| member | source | states |
|---|---|---|
| Stock.FindItem | context/AppContext.tsx:368 | The index of the first item with the id; none when no item has it. |
| Stock.Locate | context/AppContext.tsx:368-371 | The batch a bill line lands on: the first batch with that number in the first item with that id. Absent when either is missing. |
| Stock.AddStock | context/AppContext.tsx:373 | One batch's stock moves by delta. Every other batch and everything but stock stays as it was. |
| Stock.MoveAllStock | context/AppContext.tsx:367-378 | After the `forEach` over the lines, each batch has moved by exactly the total quantity of the lines located on it. Missing items and batches are skipped and nothing else changes. |
| Stock.MoveAllRoundTrip | context/AppContext.tsx:416-426 | Applying the same lines in the opposite direction restores the inventory exactly. |
| Stock.MoveLogs | context/AppContext.tsx:374 | At most one INVENTORY_UPDATE entry per line. Each carries the line's item, batch and the stock before and after. |
| Stock.ApplyMoves | context/AppContext.tsx:367-378 | The loop over a copied inventory returns exactly `MoveAll` and `MoveLogs`. |
| Stock.TotalStockUpdate | components/Inventory.tsx:162 | Replacing one batch changes the total stock by the difference between the two stocks. |
| Ledger.FindBill | context/AppContext.tsx:394 | `bills.find` by id, as the index of the first match. |
| Ledger.FindRequisition | context/AppContext.tsx:588 | The first requisition with the id, or none when no requisition has it. |
| Ledger.PrependReversed | context/AppContext.tsx:388 | `[...newLogs.reverse(), ...auditLogs]`: the old log is an exact suffix and the new entries come before it in reverse order. |
| Ledger.AfterAddBill | context/AppContext.tsx:359-390 | ADD_BILL always prepends the bill. A Finalized bill moves each line's batch down by its quantity, logs BILL_GENERATED and is queued for printing. A Pending Approval bill leaves stock alone and logs one DISCOUNT_REQUEST. Any other status logs nothing. |
| Ledger.AddBill | context/AppContext.tsx:359-390 | The branch with its loop yields exactly `AfterAddBill`. |
| Ledger.UpdateBillStatus | context/AppContext.tsx:392-404 | An unknown bill changes nothing. Otherwise every bill with the id takes the new status and changes in nothing else, and one DISCOUNT_APPROVAL entry is prepended. |
| Ledger.Finalize | context/AppContext.tsx:428 | The finalized copy has status Finalized, the payment method and the settling user. Nothing else changes. |
| Ledger.AfterFinalizeBill | context/AppContext.tsx:406-436 | FINALIZE_BILL needs only an existing bill, whatever its status. Each line's batch drops by its quantity with no sufficiency check. Every bill with the id becomes the finalized copy, which is queued for printing. BILL_FINALIZED sits just above the old log. |
| Ledger.FinalizeBill | context/AppContext.tsx:406-436 | The branch with its loop yields exactly `AfterFinalizeBill`. |
| Ledger.AfterCancelBill | context/AppContext.tsx:438-465 | State unchanged unless the bill exists and is Finalized or Approved. Then every bill with the id becomes Cancelled, each line's quantity goes back to its batch, and BILL_CANCELLED sits just above the old log. |
| Ledger.CancelBill | context/AppContext.tsx:438-465 | The branch with its loop yields exactly `AfterCancelBill`. |
| Ledger.AfterSalesReturn | context/AppContext.tsx:467-506 | An unknown bill changes nothing. Otherwise the refund is the sum of the return amounts, and each returned (item, batch) rises by exactly its quantity, with no bound. The bill becomes Returned whatever came back, and the return record is prepended. |
| Ledger.ProcessSalesReturn | context/AppContext.tsx:467-506 | The branch with its loop yields exactly `AfterSalesReturn`. |
| Ledger.AfterAddGrn | context/AppContext.tsx:511-556 | ADD_GRN merges the receipt line by line. Every purchase order with the receipt's PO id becomes Completed, and the receipt is prepended. GRN_CREATED sits just above the old log. |
| Ledger.AddGrn | context/AppContext.tsx:511-556 | The branch with its loop yields exactly `AfterAddGrn`. |
| Ledger.UpdateInventoryItem | context/AppContext.tsx:558-566 | Every item with the id is replaced by the new record. One INVENTORY_MASTER_UPDATE entry is logged, even for an unknown id. |
| Ledger.DeleteInventoryItem | context/AppContext.tsx:567-577 | An unknown id changes nothing. Otherwise the items with other ids remain in their order, `filter`'s result, and one entry names the deleted item. |
| Ledger.AfterUpdateRequisitionStatus | context/AppContext.tsx:586-625 | An unknown requisition changes nothing. Otherwise its status changes, and only Fulfilled deducts stock, earliest expiry first. The new entries are prepended unreversed, so REQUISITION_UPDATE comes first. |
| Ledger.UpdateRequisitionStatus | context/AppContext.tsx:586-625 | The branch with its nested loops yields exactly `AfterUpdateRequisitionStatus`. |
| Ledger.FinalizeThenCancelRestoresStock | context/AppContext.tsx:416-426 | FINALIZE_BILL followed by CANCEL_BILL on the same bill restores every batch's stock, and the bill ends Cancelled. |
| Ledger.SaleThenCancelRestoresStock | context/AppContext.tsx:364-378 | ADD_BILL with a Finalized bill followed by CANCEL_BILL restores the inventory. |
| Ledger.FinalizeThenFullReturnRestoresStock | context/AppContext.tsx:486-497 | Returning exactly the finalized lines restores the inventory, and the refund is the sum of the return amounts. |
| Ledger.RequisitionKeepsStockNonNegative | context/AppContext.tsx:606-614 | Fulfilling a requisition never drives a batch below zero when none was below zero. |
| Ledger.FinalizeOversells | context/AppContext.tsx:418-422 | Finalizing 8 units against a batch of 5 leaves it at -3. |
| Ledger.ApproveThenCancelAddsStock | context/AppContext.tsx:438-458 | Add with Pending Approval, approve, then cancel: the cancellation raises stock by the bill's lines, although nothing was ever deducted. |
| Ledger.CancelApprovedInflatesStock | context/AppContext.tsx:438-458 | The same with numbers: a batch of `stock` ends at stock + qty. |
| Ledger.CancelBillIntended | context/AppContext.tsx:438-465 | The corrected cancellation. It equals CANCEL_BILL on a Finalized bill, and on an Approved bill it changes the status and the log but not the stock. |
| Ledger.AddThenApprove | context/AppContext.tsx:359-404 | A pending bill added and approved leaves stock alone and is the first bill, Approved, with its lines. |
| Ledger.FinalizeThenCancelRestores | context/AppContext.tsx:406-465 | Under the corrected cancellation, finalizing an approved bill and cancelling it restores the stock. |
| Ledger.DiscountedBillLifecycleKeepsStock | context/AppContext.tsx:359-465 | Under the corrected cancellation, a discounted bill's life (approve then cancel, or approve, finalize, cancel) leaves the stock as it was. |
| Receipt.NewBatch | context/AppContext.tsx:519-528 | A received line's new batch holds the received quantity and the line's MRP. |
| Receipt.NewItem | context/AppContext.tsx:536-542 | An unknown product code registers an item with reorder level 10, priced at MRP, with one batch. |
| Receipt.RaisePrice | context/AppContext.tsx:531-533 | The price becomes max(price, MRP), and nothing else changes. |
| Receipt.MergeExistingBatch | context/AppContext.tsx:521-526 | A positive line for an existing batch raises exactly that batch by the received quantity, creating nothing. |
| Receipt.MergeNewBatch | context/AppContext.tsx:527-530 | A positive line for an existing item with a new batch number appends that batch. |
| Receipt.MergeNewProduct | context/AppContext.tsx:534-544 | A positive line for an unknown product appends a new item. |
| Receipt.MergeLineStock | context/AppContext.tsx:516-545 | One line raises its product's stock by the received quantity when positive. Non-positive lines are skipped and no other product changes. |
| Receipt.MergeAllStock | context/AppContext.tsx:516-545 | A whole receipt raises each product's stock by the sum of its positive lines. |
| Receipt.MergeTwiceDoubleCounts | context/AppContext.tsx:511-556 | Submitting the same receipt twice adds its quantities twice. |
| Receipt.MergeLogs | context/AppContext.tsx:524-543 | At most one entry per received line. |
| Receipt.ReceiveLine | context/AppContext.tsx:516-545 | The `forEach` body for one line yields exactly `MergeLine` and its entry. |
| Receipt.ReceiveAll | context/AppContext.tsx:516-545 | The loop over the receipt's lines yields exactly `MergeAll` and `MergeLogs`. |
| Fefo.FefoOrder | context/AppContext.tsx:602-604 | The batches with stock > 0, each once, with no neighbouring pair out of order under the comparator. When every batch with stock has a valid date, sorted by instant with ties in position order. |
| Fefo.BeforeTransitive | context/AppContext.tsx:604 | Among batches with valid dates the comparator is transitive, so the sort is consistent there. |
| Fefo.UndatedKeepsPlace | context/AppContext.tsx:602-604 | Two batches with stock, one undated: the NaN difference counts as equal and the order is kept. |
| Fefo.UndatedPairTakesFirst | context/AppContext.tsx:602-614 | With a dated batch followed by an undated one, a request the first can meet is taken from the first alone. |
| Fefo.DeductTotal | context/AppContext.tsx:606-614 | The inner loop takes min(requested, available) in total, and nothing for a non-positive request. |
| Fefo.DeductBounds | context/AppContext.tsx:608-611 | Every visited batch ends between zero and its old stock. |
| Fefo.DeductFrame | context/AppContext.tsx:606-614 | Only visited batches change, and of those only the stock. |
| Fefo.DeductEarliestFirst | context/AppContext.tsx:606-614 | A later-expiring batch is touched only once every earlier one in the order is empty. |
| Fefo.FefoTotal | context/AppContext.tsx:597-614 | Fulfilling one line removes min(requested, stock on hand) from the item's batches. |
| Fefo.FulfilLineEffect | context/AppContext.tsx:596-615 | An unknown item is skipped. Otherwise only that item's batches change, its total drops by min(requested, on hand), and no stocked batch goes negative. |
| Fefo.FulfilLineSkipsEmpty | context/AppContext.tsx:602 | Batches with no stock are never touched. |
| Fefo.FulfilAllKeepsNonNegative | context/AppContext.tsx:595-615 | A fulfilled requisition keeps every batch non-negative. |
| Fefo.DeductInOrder | context/AppContext.tsx:606-614 | The `for ... of sortedBatches` loop with its `break` yields exactly `Deduct` and its entries. |
| Fefo.FulfilRequest | context/AppContext.tsx:595-615 | The loop over the requested lines yields exactly `FulfilAll` and `FulfilLogs`. |
| Reducer.GenerateSalarySlip | context/AppContext.tsx:626-638 | A slip for an existing (user, month, year) changes nothing. Otherwise the slip is prepended, and either way such a slip exists afterwards. |
| Reducer.GenerateSalarySlipIdempotent | context/AppContext.tsx:626-638 | Generating the same slip twice is generating it once. |
| Reducer.GenerateKeepsUniqueSlots | context/AppContext.tsx:626-638 | At most one slip per employee, month and year is kept. |
| Reducer.Outside | context/AppContext.tsx:338-340 | Exactly the roster entries dated outside the period. |
| Reducer.UpdateRosterUpdateStatus | context/AppContext.tsx:327-358 | An unknown request changes nothing. Otherwise its status changes, and only Approved replaces the roster: old entries outside the period, then the request's assignments. |
| Reducer.FindRosterRequest | context/AppContext.tsx:329 | The first roster request with the id, or none when no request has it. |
| Reducer.ApprovalReplacesPeriod | context/AppContext.tsx:335-344 | After approval, the roster inside the period is exactly the request's assignments, and outside it the old entries. |
| Reducer.NextStatus | context/AppContext.tsx:213-228 | In Pathology iff there is a lab request. Waiting for Pharmacy iff there is none and the prescription has items. Waiting for Billing otherwise. |
| Reducer.FinalizeDoctorVisit | context/AppContext.tsx:209-253 | Prescription and any lab request are prepended. The patient gets vitals and history, and the visit its status and links. Two or three entries are logged, CONSULTATION_FINALIZED just above the old log. |
| Billing.TotalsOf | components/Billing.tsx:59-72 | grandTotal = subTotal − totalDiscount + totalGst, and on lines priced as `handleAddItem` prices them it is the sum of each line's total plus GST. |
| Billing.ComputeTotals | components/Billing.tsx:59-72 | The accumulating `forEach` yields exactly `TotalsOf`. |
| Billing.PriceLine | components/Billing.tsx:84-91 | A discount applies only to Pathology/Radiology. Total = price×qty − discount, and GST is charged on that total. An empty batch number becomes "NA". |
| Billing.GrandTotalIsSumOfLines | components/Billing.tsx:59-72 | On well-priced lines, gross − discount + GST summed over the bill equals the sum of each line's total plus GST. |
| Billing.AddItem | components/Billing.tsx:74-96 | Nothing is added without an item, with a pharmacist and no batch, or when the item has no batch. A quantity above the chosen batch's stock is refused unless the category is General. Every other request adds exactly the line `PriceLine` builds for the chosen batch. |
| Billing.PharmacyLineWithinBatch | components/Billing.tsx:79-82 | A pharmacist's added non-General line never exceeds its batch's stock. |
| Billing.CreateBill | components/Billing.tsx:102-130 | Nothing when there are no lines, no user, an unknown registered patient or a blank walk-in name. Otherwise the bill is Pending Approval iff some line's discount exceeds 5%, and Finalized otherwise. |
| Billing.ReturnKeysDistinct | components/Billing.tsx:200 | Keys `itemId-batchNumber-index` of different lines differ. |
| Billing.InitialForm | components/Billing.tsx:196-205 | Every line starts at return quantity 0. |
| Billing.Clamp | components/Billing.tsx:210 | The quantity is clamped into [0, billed]. |
| Billing.QtyChange | components/Billing.tsx:209-212 | Only the edited key changes, to the clamped quantity. |
| Billing.QtyChangeKeepsWithinBilled | components/Billing.tsx:209-212 | Edits through the clamp keep every line between 0 and its billed quantity. |
| Billing.ReturnQtyWithinBill | components/Billing.tsx:223-238 | A return built through the form never takes back more units than were billed. |
| Billing.RefundWithinBill | components/Billing.tsx:229-235 | The refund never exceeds what was paid for the lines. |
| Billing.ProcessReturn | components/Billing.tsx:223-246 | Nothing is dispatched iff every quantity is ≤ 0. Otherwise the lines with positive quantity, in order, each refunding qty×(total+GST)/quantity. |
| Billing.ReturnLinesEmpty | components/Billing.tsx:240-243 | No return line iff no entered quantity is positive. |
| Billing.Actions | components/Billing.tsx:335-341 | Print only for Finalized bills. Approve/Reject only for an Admin on Pending Approval. Finalize only for a Receptionist on Approved. Cancel for Admin or Receptionist on Finalized/Approved. Return for Admin or Pharmacist on Finalized Pharmacy bills. |
| Billing.ActionsMatchLedger | components/Billing.tsx:335-341 | Finalize is never offered for a Finalized bill, and Return only for a Finalized Pharmacy bill. |
| Procurement.OrderTotals | components/Procurement.tsx:48-57 | grandTotal = subTotal − totalDiscount + totalGst, and it equals the sum over lines of the discounted amount grossed up by GST. |
| Procurement.OrderGrandTotalIsSumOfLines | components/Procurement.tsx:48-57 | Gross − discount + GST summed over the lines equals the sum over lines of the discounted amount plus GST on it. |
| Procurement.AddOrderLine | components/Procurement.tsx:64-71 | A line is appended iff it has a name and a code, positive quantity and positive cost. Otherwise the list is unchanged. |
| Procurement.AddOrderLineKeepsValid | components/Procurement.tsx:64-71 | A list built this way holds only valid lines. |
| Procurement.RemoveOrderLine | components/Procurement.tsx:73-75 | Exactly the line at the index is dropped. |
| Procurement.SubmitOrder | components/Procurement.tsx:77-94 | A PO iff the vendor exists and there is a line. It is Pending, for that vendor, with those lines and those totals. |
| Procurement.PendingOrders | components/Procurement.tsx:150 | Exactly the Pending orders. |
| Procurement.Prefill | components/Procurement.tsx:152-173 | One receipt line per order line, with received = ordered, blank batch and expiry, and MRP 0. An unknown PO yields none. |
| Procurement.PrefillReceivesOrdered | components/Procurement.tsx:152-173 | Left as prefilled, a receipt adds to each product exactly what was ordered. |
| Procurement.PrefillNeedsBatches | components/Procurement.tsx:165-192 | A prefilled receipt is never complete: its batch numbers start blank. |
| Procurement.GrnForm.SelectOrder | components/Procurement.tsx:152-173 | Choosing an order sets the lines to its prefill. |
| Procurement.GrnForm.ItemChange | components/Procurement.tsx:175-179 | One field of one line is overwritten, and nothing else changes. |
| Procurement.GrnForm.Submit | components/Procurement.tsx:187-208 | A receipt iff the PO exists and every line has a batch and an expiry. It carries the form's lines and the PO's vendor. |
| Dates.Instant | components/Inventory.tsx:166 | A valid date denotes a fixed-width timestamp with the same day, midnight for a bare day. |
| Dates.DateTrichotomy | components/Inventory.tsx:166 | Two valid dates are the same instant or one is strictly before the other, never both ways. |
| Dates.EarlierDayIsBefore | components/Inventory.tsx:166 | A valid date on an earlier calendar day is before one on a later day, whichever form either is written in. |
| Dates.DayIsItsMidnight | components/Inventory.tsx:166 | A bare day is never after a timestamp on that day, and is before it unless the timestamp is midnight. |
| InventoryView.EarliestIsMinimal | components/Inventory.tsx:165-167 | When every expiry it sees is a valid date, in either form, the `reduce` ends on an expiry whose instant is no later than any of them. |
| InventoryView.NextExpiryIsEarliest | components/Inventory.tsx:163-168 | Null iff no batch has stock. Otherwise it is the expiry of a batch with stock, and the earliest such instant when every batch with stock has a valid date. |
| InventoryView.EarliestRestarts | components/Inventory.tsx:165-167 | A batch whose expiry is not a date resets the `reduce`: the result is the reduce of the later batches started from it. |
| InventoryView.UndatedLastStockedIsNext | components/Inventory.tsx:163-168 | When the last batch with stock has an undated expiry, that expiry is the next expiry. |
| InventoryView.Process | components/Inventory.tsx:161-173 | Total stock is the sum of the batches. Expired iff the next expiry is a valid date whose instant is before now. Nearing iff it is a valid date, not expired and before now + 30 days. An empty or invalid next expiry sets neither flag. |
| InventoryView.EarlierDayIsNext | components/Inventory.tsx:163-168 | Of two batches with stock and valid dates, the one on the earlier day is next, in either order. |
| InventoryView.SeededParacetamolNextExpiry | components/Inventory.tsx:163-168 | The seeded PCTM-101 and PCTM-102 timestamps give the 2026 expiry as next. |
| InventoryView.SeededAmoxicillinExpired | components/Inventory.tsx:170 | The seeded AMX-201 timestamp flags the item expired on any later day. |
| InventoryView.FlagsExclusive | components/Inventory.tsx:170-171 | Never both expired and nearing expiry, and neither without stock. |
| InventoryView.UndatedBatchClearsFlags | components/Inventory.tsx:163-171 | A batch added with stock and an empty expiry, last among those with stock, makes the next expiry empty and sets neither flag. |
| InventoryView.ExpiredMeansStockedBatchExpired | components/Inventory.tsx:163-170 | Expired only if a dated batch with stock is before now. When every batch with stock is dated, expired iff some batch with stock is before now. |
| InventoryView.StatusOf | components/Inventory.tsx:237-260 | Expired over Nearing Expiry over Low Stock over In Stock, where low stock is 0 < total ≤ reorder level. |
| InventoryView.EmptyItemShowsInStock | components/Inventory.tsx:237-260 | An item with no stock at all is badged In Stock. |
| InventoryView.StatusIntended | components/Inventory.tsx:257-260 | The corrected badge: In Stock only with stock, and otherwise as before. |
| InventoryView.EmptyItemShowsOutOfStock | components/Inventory.tsx:257-260 | Under the corrected badge an empty item shows Out of Stock. |
| InventoryView.Visible | components/Inventory.tsx:177-189 | Exactly the rows matching the search and the stock filter (low or expired). |
| InventoryView.ShowAll | components/Inventory.tsx:177-189 | No term with All Items shows every row, in order. |
| InventoryView.SortByNameSorted | components/Inventory.tsx:174 | The sort yields rows in collation order: case ignored first, lower case first on a tie. |
| InventoryView.NameLeTotal | components/Inventory.tsx:174 | Any two names are ordered one way or the other. |
| InventoryView.NameLeIgnoresCase | components/Inventory.tsx:174 | Names that differ after case folding are ordered by the folded names, whatever their case. |
| InventoryView.Processed | components/Inventory.tsx:156-175 | A permutation of the processed items, in collation order of their names. |
| InventoryView.InventoryEditForm.constructor | components/Inventory.tsx:10-14 | The form starts with the item and nothing being edited. |
| InventoryView.InventoryEditForm.ItemChange | components/Inventory.tsx:16-19 | One item field changes. |
| InventoryView.InventoryEditForm.AddBatch | components/Inventory.tsx:21-27 | A blank batch is appended, and nothing happens while a batch is being edited. |
| InventoryView.InventoryEditForm.RemoveBatch | components/Inventory.tsx:29-35 | The batch at the index is dropped, and nothing happens while a batch is being edited. |
| InventoryView.InventoryEditForm.EditBatch | components/Inventory.tsx:38-41 | Editing starts on a copy of that batch. |
| InventoryView.InventoryEditForm.CancelBatchEdit | components/Inventory.tsx:43-46 | The copy is dropped and the item is untouched. |
| InventoryView.InventoryEditForm.EditingBatchChange | components/Inventory.tsx:58-61 | Only the copy changes, if there is one. |
| InventoryView.InventoryEditForm.SaveBatch | components/Inventory.tsx:48-56 | Only the edited index takes the copy, every other batch is unchanged, and editing is cleared. |
| InventoryView.InventoryEditForm.Submit | components/Inventory.tsx:63-71 | The item is dispatched iff no batch is being edited. |
| Fuzzy.LevenshteinDistance | utils.ts:8-34 | The single-row loop over `costs` returns the edit distance of the lower-cased strings. |
| Fuzzy.NextRow | utils.ts:13-31 | Each outer pass turns `costs` from row i − 1 of the table into row i. |
| Fuzzy.Cell | utils.ts:19-26 | One inner step computes the table entry (i, j) from its neighbours and shifts `costs`. |
| Fuzzy.LevBounds | utils.ts:8-34 | The distance lies between the length difference and the longer length, so from the empty string to s it is the length of s. |
| Fuzzy.LevSymmetric | utils.ts:8-34 | The distance is symmetric. |
| Fuzzy.LevZeroIff | utils.ts:8-34 | The distance is 0 iff the strings are equal. |
| Fuzzy.LevOneSubstitution | utils.ts:8-34 | One mistyped character costs at most one edit. |
| Fuzzy.FuzzySearch | utils.ts:42-66 | True for an empty term and false against empty text. True on a case-insensitive substring. For terms shorter than 3, true iff a substring. |
| Fuzzy.CaseInsensitive | utils.ts:46-47 | Case in term or text makes no difference. |
| Fuzzy.OneTypoMatches | utils.ts:57-65 | A single-word term of 3 or more letters with one mistyped letter matches. |
| Fuzzy.SpacesMatchEverything | utils.ts:55-61 | A term of three or more spaces matches every non-empty text, since it has no words. |
| Scheduling.DefaultSlots | components/dashboards/OperationalDashboard.tsx:53-62 | The nested loops yield the labels of 09:00 to 16:45 in 15-minute steps. |
| Scheduling.FallbackCount | components/dashboards/OperationalDashboard.tsx:56-60 | There are 32 default slots. |
| Scheduling.FallbackFirst | components/dashboards/OperationalDashboard.tsx:56-60 | The first default slot is "09:00". |
| Scheduling.FallbackLast | components/dashboards/OperationalDashboard.tsx:56-60 | The last default slot is "16:45". |
| Scheduling.GenerateRange | components/dashboards/OperationalDashboard.tsx:71-89 | The `while` loop for one range yields exactly `RangeSlots`. |
| Scheduling.ClocksFromMinuteBelow60 | components/dashboards/OperationalDashboard.tsx:84-87 | From a start minute below 60, every minute stays below 60 after the carry. |
| Scheduling.ClocksFromBetween | components/dashboards/OperationalDashboard.tsx:81-88 | The loop visits the start and then every 15 minutes, strictly before the end. |
| Scheduling.RangeSlotsBetween | components/dashboards/OperationalDashboard.tsx:71-89 | A parsed range gives the zero-padded labels of start, start+15, … strictly before the end. |
| Scheduling.SlotTimes | components/dashboards/OperationalDashboard.tsx:81-88 | Slot k is start + 15k and lies before the end, so the times strictly increase. |
| Scheduling.ValidRangeParses | components/dashboards/OperationalDashboard.tsx:72-79 | A range in `NN:NN-NN:NN` form parses to four numbers below 100, and the loop ends. |
| Scheduling.DefaultRangeIsFallback | components/dashboards/OperationalDashboard.tsx:53-89 | The doctor form's default range 09:00-17:00 gives exactly the default slots. |
| Scheduling.FormatShape | components/dashboards/OperationalDashboard.tsx:83 | A label is two digits, a colon, two digits. |
| DoctorDay.IsDayAvailable | components/dashboards/OperationalDashboard.tsx:46-50 | Every day when there is no schedule, otherwise exactly the days with an entry. |
| DoctorDay.TimeSlots | components/dashboards/OperationalDashboard.tsx:52-92 | The default slots without a schedule, none for a day without an entry, else each range's slots in turn. |
| DoctorDay.RangesSlots | components/dashboards/OperationalDashboard.tsx:70-89 | The `forEach` over a day's ranges concatenates their slots. |
| DoctorDay.UnavailableDayHasNoSlots | components/dashboards/OperationalDashboard.tsx:46-66 | A day greyed out in the picker offers no slot. |
| DoctorDay.CleanedScheduleTerminates | components/Doctors.tsx:77-85 | Every day of a schedule saved through the doctor form lets the slot loop end. |
| Dashboard.BookedSlots | components/dashboards/OperationalDashboard.tsx:94-101 | Exactly the times of Confirmed requests dated on the selected day. |
| Dashboard.FindDoctorByName | components/dashboards/OperationalDashboard.tsx:26 | The first doctor with the name, or none when no doctor has it. |
| Dashboard.LowStockItems | components/dashboards/OperationalDashboard.tsx:211-216 | Exactly the items with 0 < total stock ≤ reorder level. |
| Dashboard.LowStockAgrees | components/dashboards/OperationalDashboard.tsx:211-216 | The dashboard's low-stock list and the inventory screen's low-stock rule agree. |
| Calendar.RangeBounds | components/dashboards/DoctorCalendarView.tsx:21-25 | For a range with both parts present, in range iff start ≤ time < end on strings. |
| Calendar.UnparsedRangeContainsNothing | components/dashboards/DoctorCalendarView.tsx:22-23 | A range missing its start or end contains no time. |
| Calendar.RangeContainsStart | components/dashboards/DoctorCalendarView.tsx:21-25 | A non-empty range contains its own start. |
| Calendar.TimeSlots | components/dashboards/DoctorCalendarView.tsx:42-49 | The loop yields the labels of 08:00, 08:30, … each half hour for 24 rows. |
| Calendar.GridFirst | components/dashboards/DoctorCalendarView.tsx:42-49 | The grid has 24 rows, the first "08:00". |
| Calendar.GridLast | components/dashboards/DoctorCalendarView.tsx:42-49 | The last row is "19:30". |
| Calendar.DoctorAppointments | components/dashboards/DoctorCalendarView.tsx:35-40 | Exactly the Confirmed requests whose named doctor's id equals the current user's. |
| Calendar.OwnAppointments | components/dashboards/DoctorCalendarView.tsx:35-40 | For a signed-in doctor: Confirmed, and the first doctor with the requested name has the user's id. |
| Calendar.SlotInfoOf | components/dashboards/DoctorCalendarView.tsx:51-74 | Unavailable iff no schedule, no ranges that day or no range holds the time. Booked by the first own appointment on that date whose time starts with the slot's first four characters. Available iff none books it. |
| Calendar.UnscheduledDayUnavailable | components/dashboards/DoctorCalendarView.tsx:55-59 | A day without an entry is unavailable at every time. |
| Calendar.AppointmentBooksSlot | components/dashboards/DoctorCalendarView.tsx:66-70 | An own appointment at the slot's exact time, inside the doctor's hours, books it. |
| Availability.Put | components/Doctors.tsx:23-26 | The day gets the ranges, other days keep theirs, and a new key goes last. |
| Availability.Delete | components/Doctors.tsx:20-22 | The day is gone and the other days are unchanged. |
| Availability.ToggleDay | components/Doctors.tsx:18-28 | A present day is removed and an absent one gets `['09:00-17:00']`. Other days are unchanged. |
| Availability.ToggleTwiceRestores | components/Doctors.tsx:18-28 | Ticking and unticking an absent day gives back the same schedule. |
| Availability.TimeChange | components/Doctors.tsx:30-40 | Only that index of that day changes, and an absent day is ignored. |
| Availability.AddTimeSlot | components/Doctors.tsx:42-50 | `''` is appended only to a present day. |
| Availability.RemoveTimeSlot | components/Doctors.tsx:52-72 | The index is dropped, and a day left empty is deleted. An absent day is ignored. |
| Availability.CleanDay | components/Doctors.tsx:79-82 | Exactly the ranges matching `NN:NN-NN:NN`, and none when no range does. |
| Availability.Clean | components/Doctors.tsx:77-85 | Each day keeps its valid ranges, and days left without one are dropped. |
| Availability.CleanIsValid | components/Doctors.tsx:77-85 | Every surviving range is in `NN:NN-NN:NN` form, and every day keeps at least one. |
| Availability.FormatAvailability | components/Doctors.tsx:209-212 | "Not Set" iff the map is missing or empty. Otherwise the three-letter day prefixes joined by ", ". |
| Employees.RolePrefix | components/Employees.tsx:207-212 | Every role has a non-empty prefix without a hyphen. |
| Employees.Highest | components/Employees.tsx:213-218 | The largest suffix, or 0 when there is none. |
| Employees.GenerateEmployeeId | components/Employees.tsx:206-220 | The prefix, a hyphen, and 1 + the highest numeric suffix padded to 3 digits. |
| Employees.GeneratedSuffix | components/Employees.tsx:213-219 | The new id's suffix parses back to its number. |
| Employees.GeneratedIdIsFresh | components/Employees.tsx:213-219 | The generated id differs from every existing user's id. |
| Employees.NextApprovalStatus | components/Employees.tsx:451-456 | The status changes iff the viewer's queue holds it: Admin moves the first stage to HR, and HR moves the second to Approved. It then advances exactly one stage. |
| Employees.TwoStageApproval | components/Employees.tsx:451-463 | Admin then HR approves a new request, and no single role can approve it alone. |
| Employees.HandleLeaveUpdate | components/Employees.tsx:451-456 | UPDATE_LEAVE_STATUS with a changed status iff the request is in the viewer's queue. |
| Employees.HandleRosterChangeUpdate | components/Employees.tsx:458-463 | UPDATE_ROSTER_CHANGE_STATUS with a changed status iff the request is in the viewer's queue. |
| Employees.PendingQueue | components/Employees.tsx:473-474 | Admin sees exactly the first-stage requests and HR the second-stage ones. |
| Employees.QueueIsActionable | components/Employees.tsx:451-474 | A request is in the queue iff the viewer's action moves it on. |
| Employees.PendingRosterUpdates | components/Employees.tsx:475 | Only HR sees roster updates, exactly those pending HR approval. |
| Employees.PlanSet | components/Employees.tsx:617 | The key maps to the shift and every other key is unchanged. |
| Employees.PlanDelete | components/Employees.tsx:616 | The key is gone and every other key is unchanged. |
| Employees.RosterPlanner.constructor | components/Employees.tsx:602-610 | The plan is the load of the roster entries of the week, each setting its key in roster order. |
| Employees.LoadPlanGet | components/Employees.tsx:602-610 | After the load, a key holds the shift of the last entry of the week with that key, and nothing iff no entry of the week has it. |
| Employees.RosterPlanner.ShiftChange | components/Employees.tsx:612-620 | 'Off' deletes the `userId-date` key, a shift sets it, and no other key changes. |
| Employees.RosterPlanner.SubmitRoster | components/Employees.tsx:622-640 | Nothing without a user. Otherwise a request pending HR approval with one assignment per key, split as written. |
| Employees.KeyFieldsKeepYear | components/Employees.tsx:624-626 | The split as written recovers only the year of an ISO date. |
| Employees.KeyFieldsSplitHyphenatedId | components/Employees.tsx:624-626 | For a hyphenated user id such as the generated `DOC-001` the split as written returns `(DOC, 001)`, while the corrected split returns the id and the date. |
| Employees.KeyFieldsIntendedRoundTrip | components/Employees.tsx:613-626 | The corrected split recovers the user id and the date from every key. |
| Employees.NewSlip | components/Employees.tsx:800-803 | net = basic + Σ allowances − Σ deductions, for that user, month and year. |
| Employees.GenerateSlips | components/Employees.tsx:793-810 | The loop dispatches a slip for each user with a salary and no slip that period. generated + existed = the number of users with a salary. |
| Employees.DispatchedAreNew | components/Employees.tsx:796-803 | Every dispatched slip is for a user with a salary and no slip yet that period. |
| Employees.DispatchedUnique | components/Employees.tsx:795-806 | Users with distinct ids get slips for distinct employees. |
| Employees.ApplySlipsPrependsAll | context/AppContext.tsx:626-638 | Slips new to the state and to each other are all kept, the last dispatched first. |
| Employees.PayrollAddsGenerated | components/Employees.tsx:793-810 | A payroll run adds exactly the generated slips to the state. |
| Patients.WaitPartsExact | components/PatientManagement.tsx:326-331 | For a non-negative wait, mins = ⌊ms/60000⌋ and secs = ⌊(ms mod 60000)/1000⌋ < 60. |
| Patients.FormatWaitTimeReadsBack | components/PatientManagement.tsx:326-331 | The text is two digit fields around a colon that read back as the minutes and seconds. |
| Patients.JsRemMinute | components/PatientManagement.tsx:329 | JavaScript's `%` by 60000: the remainder has the dividend's sign, is below 60000 in size and differs from the dividend by a multiple of 60000. |
| Patients.FormatTotalVisitTime | components/PatientManagement.tsx:333-335 | "00h 00m" when the end is before the start. |
| Patients.VisitPartsExact | components/PatientManagement.tsx:336-338 | hours×60 + minutes = whole minutes, with minutes < 60. |
| Patients.FormatTotalVisitTimeShape | components/PatientManagement.tsx:336-339 | Hours and minutes are padded digit fields that read back as their values. |
| Patients.ActiveVisits | components/PatientManagement.tsx:310-312 | Exactly the visits not Completed. |
| Patients.CountsOverAllVisits | components/PatientManagement.tsx:321-323 | Each counter over the active visits equals the same count over all visits. |
| Patients.CountsBounded | components/PatientManagement.tsx:321-323 | The three counters together never exceed the active visits. |
| Patients.PincodeLookup | components/PatientManagement.tsx:27-35 | City and state from the table iff the pincode has 6 characters and is known, and both cleared otherwise. |
| Patients.AfterPincodeEffect | components/PatientManagement.tsx:27-35 | After the effect city and state are the lookup of the pincode field, and every other field is kept. |
| Patients.PincodeEffectFixedIff | components/PatientManagement.tsx:19-35 | The effect leaves the form unchanged iff city and state already agree with the table, and a second run changes nothing. On the mount of an edit form, a patient whose pincode is not a known six-character code has city and state cleared. |
| Patients.PincodeChangeKeepsAgreement | components/PatientManagement.tsx:27-35 | From a form whose city and state agree with its pincode, every pincode edit keeps them in agreement and changes only pincode, city and state. An edit to the same pincode changes nothing. |
| Patients.Submit | components/PatientManagement.tsx:37-81 | Update iff editing. An edited patient takes the form's fields and keeps the rest. A new patient is built from the given id and the form's name, contact, type, doctor, pincode, city and state. An IPD patient gets the chosen ward and bed, an OPD update deletes the bed, and a new OPD patient has none. |

## Left out

- React rendering, modals, tabs and navigation. Only the rules that decide
  what is shown or dispatched are modelled.
- Printing, PDF generation and the printable documents, because they depend
  on the browser's DOM. `documentToPrint` is modelled only as the value the
  reducer stores.
- The AI report call and the rest of the reports screen, which are a
  network client and floating-point aggregation.
- Floating-point money and `toFixed` rounding. Amounts are exact reals, and
  audit details carry the values rather than the formatted text.
- `Date`, `Date.now()` and `Math.random()`. Ids, timestamps, "today",
  today + 30 days, the weekday name and the ISO date of a calendar column
  are parameters.
- Unicode `toLowerCase`. Lower-casing is ASCII only.
- `InventoryView.SortByName`: `localeCompare` is modelled as ASCII case-folded
  code-unit order, with lower case first on names equal after folding. The
  locale's weights for accents, punctuation and non-ASCII letters are not
  modelled.
- `Dates.IsDate`: `new Date` is modelled as reading the `YYYY-MM-DD` form of
  the date inputs and the `YYYY-MM-DDTHH:MM:SS.sssZ` form of `toISOString`,
  the two forms the app stores. Other formats it accepts are read as Invalid
  Dates, and out-of-range months or days, which it rejects, are read as dates.
- `InventoryView.EarliestIsMinimal`: minimality is stated only when every
  expiry the `reduce` sees is a valid date. With an Invalid Date the source's
  reduce is not minimal: it restarts at that batch (`EarliestRestarts`).
- `Fefo.FefoOrder`: with an undated batch among three or more batches with
  stock, the comparator is inconsistent and the order the engine's sort
  produces is implementation-defined. The model takes the order of its
  insertion sort; only the neighbouring-pair order, and the two-batch case,
  are promised.
- The static pincode table, which is a map parameter of `Patients.PincodeLookup`.
- `Procurement.AddOrderLine`: quantities are integers. The order form reads a
  line's quantity with `parseFloat(value) || 0`, so a fractional quantity such
  as 2.5 passes its positive-quantity check; such lines are not modelled.
- `Procurement.Prefill`: the received quantity is the ordered one, so a
  fractional ordered quantity would arrive in the receipt unless edited. The
  receipt's own field is read with `parseInt` and is an integer.
- `Receipt.MergeAll`: adds integer received quantities to integer stock; the
  fractional stock an unedited fractional prefill would produce is not modelled.
- `InventoryView.InventoryEditForm.ItemChange`: the reorder level is an integer.
  The item form reads it with `Number(value)`, which also yields fractions and
  NaN; neither is modelled.
- `InventoryView.InventoryEditForm.EditingBatchChange`: a batch's stock is an
  integer. The batch form reads it with `Number(value)`, which also yields
  fractions and NaN; neither is modelled.
- `Employees.Highest`: the descending sort's comparator yields NaN for
  non-numeric suffixes, and the engine's resulting order is unspecified. The
  model ignores such suffixes, so `GeneratedIdIsFresh` is proved for the
  numeric ones.
- `Employees.RolePrefix`: every role has an entry, so the `'EMP'` fallback is
  unreachable and is not modelled.
- `completedVisitsToday` and its sort by update time, the patient's age,
  gender, address and registration date, and the experience-letter queue.
  These are read-only views or fields that no modelled rule reads.
- The `UPDATE_LEAVE_STATUS`, `UPDATE_ROSTER_CHANGE_STATUS` and
  `SUBMIT_ROSTER_UPDATE` branches. They replace a request's status or
  prepend a request with no further rule. The screens' choice of the next
  status is modelled.
- `DoctorDay.TimeSlots`: requires every range of the day to let the loop end.
  A range whose start minute is not a number makes the original loop run
  forever, and such ranges cannot survive the doctor form's check.
- `Availability.TimeChange`: requires the index to lie inside the day's list.
  The screen only calls it for an existing row, and writing past the end
  would leave holes in the array.
- `Procurement.GrnForm.ItemChange`: requires the index to lie inside the
  lines. The screen only edits rendered rows, and an index past the end
  would throw.
- Concurrency: the reducer is synchronous, so each command is one atomic
  state transition.

## Findings

| source | as written | input that shows it | evidently intended | confidence | as-written member | corrected member |
|---|---|---|---|---|---|---|
| context/AppContext.tsx:438-458 | CANCEL_BILL adds each line back to stock for Approved bills as well as Finalized ones | A bill for 20 units submitted with a discount over 5%, approved, then cancelled, against a batch of 150: the batch ends at 170 | Only a Finalized bill, whose lines were deducted, gives stock back | high, not executed | Ledger.CancelApprovedInflatesStock | Ledger.CancelBillIntended |
| components/Employees.tsx:624-626 | `key.split('-')` keeps the first two fields of `userId-date` | User `DOC-001` on `2024-05-06`: the key `DOC-001-2024-05-06` yields user `DOC` and date `001` | The user id and the full ISO date | high, not executed | Employees.KeyFieldsSplitHyphenatedId | Employees.KeyFieldsIntendedRoundTrip |
| components/Inventory.tsx:237-260 | An item with no stock is badged In Stock | An item whose batches all hold 0 | Out of stock, not In Stock | medium, not executed | InventoryView.EmptyItemShowsInStock | InventoryView.EmptyItemShowsOutOfStock |
