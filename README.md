# Vaccine inventory: a verified model of the pages' logic and the mock services

This project models the bookkeeping of a small vaccine-inventory web application and proves
properties of it in Dafny. The application keeps lots of vaccine in stock and records what
happens to them: shipments received and inspected, doses given to patients, doses lost, and a
monthly physical count reconciled against the system count. A dashboard and a reports page
summarise the records.

What is modelled:

- **The five mock services** (inventory, losses, receipts, administrations, vaccines). Each
  operation is a pure function. It either rejects, with the reason as a `ServiceError`, or
  returns the record it builds. The services keep no state: `getAll` always returns the same
  literal list. The model takes that list as a parameter (a *fixture*), and no write ever
  changes it.
- **The form pages** (Receiving, Administration, Loss Report, Inventory).
  - Each page is a class holding its state fields. Its handlers are methods.
  - Each `validateForm` is a method that builds the error map check by check. It is proved
    against the page's validity predicate (*no errors iff valid*) and against per-field
    conditions.
  - The submits are proved to keep stock from going negative and to write only the chosen lot.
- **The reconciliation session.** A class holds the row array, the counts, the month and the
  step.
  - The handlers change one row at a time.
  - The summary, the validator and the finalisation are proved against their specifications.
- **Classification and aggregation.**
  - The five-way alert level and the expiration badge, with both directions of every threshold.
  - The inventory filter pipeline, the alert counts and the dashboard metrics.
  - The reports' coverage, rows and summary cards.
- **The CSV serialiser of the reports page.** Its partner is a CSV reader, and the project
  proves that the reader gets the headers and every row's texts back from the written CSV.
- **The data table's sort state and sort.** A two-field toggle and a stable comparator sort.

Dates are whole day numbers (`Day = int`). A `YYYY-MM-DD` date is midnight UTC and "now" lies
strictly after today's midnight. So the source's `Math.ceil((date - now) / day)` is the
difference of day numbers, and `date <= now + 30 days` holds iff `date <= today + 30`. Today,
the clock reading used for new ids, and the date formatter are parameters.

A number typed into a form box is an `Input`: `Blank`, `Numeric(n)` or `NonNumeric`.
JavaScript's `parseInt`, `isNaN` and the comparisons on a possibly-NaN number are written out in
`Forms`.

## Model

| member | source | states |
|---|---|---|
| InventoryService.GetById | src/services/api/inventoryService.js:69-76 | finds the first item with the id; rejects with NotFound exactly when no item has it |
| InventoryService.Create | src/services/api/inventoryService.js:79-96 | rejects iff vaccineId, lotNumber or quantityOnHand is falsy (a quantity of 0 included); otherwise the data's fields, a supplied id or the fresh one, and lastUpdated set to today |
| InventoryService.Update | src/services/api/inventoryService.js:99-116 | rejects iff the id is falsy; otherwise the data under the argument id unless the data has its own, with lastUpdated overwritten and nothing else changed |
| InventoryService.Delete | src/services/api/inventoryService.js:119-129 | rejects iff the id is falsy |
| InventoryService.GetLowStock | src/services/api/inventoryService.js:132-135 | exactly the items with quantityOnHand <= minimumStock, a sub-multiset of the fixture |
| InventoryService.GetExpiring | src/services/api/inventoryService.js:138-147 | exactly the items dated on or before today + days (30 by default) |
| InventoryService.GetExpiringMonotone | src/services/api/inventoryService.js:138-147 | a longer look-ahead finds every item a shorter one finds |
| LossService.GetById | src/services/api/lossService.js:84-91 | a record with the id, or NotFound exactly when there is none |
| LossService.Create | src/services/api/lossService.js:94-113 | rejects iff vaccineId, lotNumber, quantity or reason is falsy; otherwise copies the data, with reportedDate defaulting to today and wastageType to 'Unknown' |
| LossService.Update | src/services/api/lossService.js:116-132 | rejects iff the id is falsy; otherwise the data under that id, where an id in the data wins |
| LossService.Delete | src/services/api/lossService.js:135-145 | rejects iff the id is falsy |
| LossService.GetByReason | src/services/api/lossService.js:148-151 | exactly the records with that reason |
| LossService.GetByDateRange | src/services/api/lossService.js:154-160 | exactly the dated records with start <= date <= end |
| LossService.GetSummary | src/services/api/lossService.js:163-179 | totalQuantity is the sum of quantities, totalRecords the count, and preventable + non-preventable <= totalRecords, each being the size of its wastage-type filter |
| LossService.GetByWastageType | src/services/api/lossService.js:167-168 | exactly the records of one wastage type |
| LossService.TotalQuantityNonNegative | src/services/api/lossService.js:163-165 | with no negative quantity, the total is not negative |
| ReceiptService.GetById | src/services/api/receiptService.js:89-96 | a receipt with the id, or NotFound exactly when there is none |
| ReceiptService.Create | src/services/api/receiptService.js:99-117 | rejects iff vaccineId, lotNumber or quantitySent is falsy; otherwise copies the data, with receivedDate defaulting to today and status to 'pending' |
| ReceiptService.Update | src/services/api/receiptService.js:120-136 | rejects iff the id is falsy; otherwise the data under that id |
| ReceiptService.Delete | src/services/api/receiptService.js:139-149 | rejects iff the id is falsy |
| ReceiptService.GetByStatus | src/services/api/receiptService.js:152-155 | exactly the receipts with that status |
| ReceiptService.GetSummary | src/services/api/receiptService.js:158-173 | the four totals are the sums of sent, received, passed and failed |
| ReceiptService.SummaryBalances | src/services/api/receiptService.js:158-173 | when every receipt's passed + failed equals its received, so do the totals |
| AdministrationService.GetByDateRange | src/services/api/administrationService.js:64-70 | exactly the dated records with start <= date <= end |
| AdministrationService.Create | src/services/api/administrationService.js:73-90 | rejects iff vaccineId, lotNumber or dosesUsed is falsy; otherwise copies the data, keeping a supplied date and defaulting it to today |
| AdministrationService.Update | src/services/api/administrationService.js:93-109 | rejects iff the id is falsy; otherwise the data under that id |
| AdministrationService.Delete | src/services/api/administrationService.js:112-122 | rejects iff the id is falsy |
| AdministrationService.GetSummary | src/services/api/administrationService.js:125-136 | totalDoses is the sum of dosesUsed, totalRecords the count, uniqueVaccines the number of distinct vaccine ids and never more than the records |
| VaccineService.GetById | src/services/api/vaccineService.js:79-86 | a vaccine with the id, or NotFound exactly when there is none |
| VaccineService.GetByFamily | src/services/api/vaccineService.js:89-92 | exactly the vaccines of that family |
| VaccineService.GetActive | src/services/api/vaccineService.js:95-98 | exactly the vaccines whose isActive is true |
| VaccineService.SortedDistinct | src/services/api/vaccineService.js:101-105 | `[...new Set(xs)].sort()`: sorted, without duplicates, the same set of values |
| VaccineService.GetFamilies | src/services/api/vaccineService.js:101-105 | sorted, duplicate-free, and holds a family iff some vaccine has it |
| VaccineService.GetManufacturers | src/services/api/vaccineService.js:108-112 | sorted, duplicate-free, and holds a manufacturer iff some vaccine has it |
| VaccineService.Create | src/services/api/vaccineService.js:115-132 | rejects iff name, manufacturer or vaccineFamily is falsy; otherwise copies the data, isActive defaulting to true and a supplied value kept |
| VaccineService.CreatedIsActiveByDefault | src/services/api/vaccineService.js:123-127 | a vaccine created without isActive is listed as active |
| VaccineService.Update | src/services/api/vaccineService.js:135-151 | rejects iff the id is falsy; otherwise the data under that id |
| VaccineService.Delete | src/services/api/vaccineService.js:154-164 | rejects iff the id is falsy |
| Forms.ParseInt | src/components/pages/Receiving.jsx:75-86 | `parseInt` is the box's integer exactly for a numeric box, and NaN for an empty or non-numeric one |
| Forms.ParseIntOrZeroBox | src/components/pages/Receiving.jsx:89-91 | `parseInt(x \|\| 0)`: an empty box reads as 0, any other as parseInt |
| Forms.ParseIntOr0 | src/components/pages/Reconciliation.jsx:64 | `parseInt(x) \|\| 0`: the number for a numeric box, 0 otherwise, a negative number unclamped |
| Forms.ClearError | src/components/pages/Receiving.jsx:153-155 | editing a box blanks that box's error and keeps every other |
| Text.MatchesTermIgnoresCase | src/components/pages/Administration.jsx:77-90 | lower-casing the field or the term changes no match, and the empty term matches everything |
| Text.IncludesAt | src/components/pages/Reports.jsx:357 | `includes` holds iff the text occurs at some position |
| Text.LowerChar | src/components/pages/Administration.jsx:82-85 | `toLowerCase` on a character: A-Z become small, and so do the capitals of U+00C0-U+00DE, the Greek U+0386-U+03AB and the Cyrillic U+0400-U+052F (each range as listed under "Left out"); every other character is kept, and the result is never such a capital |
| Text.ToLowerIdempotent | src/components/pages/Administration.jsx:82-85 | lower-casing twice is lower-casing once |
| Text.GreekAndCyrillicSearchMatches | src/components/pages/Administration.jsx:82-85 | Greek tonos and Cyrillic capitals fold too: "ά" finds "Άγιος", and "ґ" finds "Ґанок" |
| Text.AccentedSearchMatches | src/components/pages/Administration.jsx:82-85 | accented capitals fold too: "é" finds "École", and "JOSÉ" finds "José" |
| Text.CodeUnitRank | src/services/api/vaccineService.js:104 | a character's place in UTF-16 code-unit order: characters below U+D800 keep their code, those from U+E000 to U+FFFF rank above every character beyond U+FFFF |
| Text.AstralBeforeFullWidth | src/components/molecules/DataTable.jsx:24-29 | a character beyond U+FFFF sorts before U+FF01 and not after it, as its first code unit is lower |
| Text.LexLeTotalPreorder | src/services/api/vaccineService.js:104 | the string order of the default `sort` is total and transitive |
| Sorting.SortBy | src/components/molecules/DataTable.jsx:21-32 | the sorted copy is a permutation of the input |
| Sorting.SortBySorted | src/components/molecules/DataTable.jsx:21-32 | under a total preorder, the result is ordered |
| Sorting.SortByMembers | src/services/api/vaccineService.js:104 | sorting keeps exactly the same elements |
| Sorting.SortByStable | src/components/molecules/DataTable.jsx:20-31 | the sort is stable: the elements comparing equal to any element of the input keep their input order |
| Sorting.InsertStable | src/components/molecules/DataTable.jsx:20-31 | inserting into an ordered sequence puts the new element after every element equal to it |
| Seqs.Dedupe | src/components/pages/Reports.jsx:426-430 | `[...new Set(xs)]`: no duplicates, the same elements, in the order of their first occurrences |
| Seqs.FirstIndex | src/components/pages/Reports.jsx:426-430 | the index of an element's first occurrence |
| Seqs.Take | src/components/pages/Dashboard.jsx:62-70 | `slice(0, n)`: the first min(n, length) elements |
| Alerts.DaysUntilExpiration | src/components/pages/Dashboard.jsx:86-92 | the days until expiration are the date minus today, and NaN without a date |
| Alerts.AlertLevelOf | src/components/pages/Inventory.jsx:108-118 | each level holds exactly on its band: expired before today, critical up to 7 days, warning up to 30, then low stock below 10 doses, else good; a lot without a date falls to the stock test |
| Alerts.AlertLevelWorsensOverTime | src/components/pages/Inventory.jsx:108-118 | as days pass a lot's level only moves towards expired, and the stock levels never change with time alone |
| Lots.FindLot | src/components/pages/Administration.jsx:117-124 | a lot of that vaccine and number, or none exactly when no item matches both |
| Lots.AvailableLots | src/components/pages/Administration.jsx:240-244 | exactly the items of the vaccine with stock left |
| Lots.AutoFillLot | src/components/pages/Administration.jsx:229-237 | fills the lot iff a vaccine is chosen and exactly one lot is available, and then every available lot has that number |
| Lots.StockWrite | src/components/pages/Administration.jsx:151-170 | the decremented lot as the inventory service returns it: rejected iff the lot's id is falsy, otherwise only quantityOnHand and lastUpdated change |
| ReceivingPage.AfterInput | src/components/pages/Receiving.jsx:149-167 | the edited box takes the value; editing received or passed sets failed to max(0, received - passed) exactly when received > 0 and passed >= 0 |
| ReceivingPage.AutoCalcBalances | src/components/pages/Receiving.jsx:158-166 | after that auto-fill, with 0 <= passed <= received, the doses balance |
| ReceivingPage.ValidIffChecksPass | src/components/pages/Receiving.jsx:63-104 | the form is valid iff every required, numeric, balance and reason check passes |
| ReceivingPage.RequiredErrors | src/components/pages/Receiving.jsx:66-72 | each of the seven required boxes (text, date and the four counts) gets its own "… is required" message iff it is empty, and the reason box gets none |
| ReceivingPage.NumberErrors | src/components/pages/Receiving.jsx:75-86 | a count box gets "Must be a valid number" iff it is not numeric; every other entry, message included, is unchanged |
| ReceivingPage.DoseErrors | src/components/pages/Receiving.jsx:89-100 | both dose boxes get the sum message iff passed + failed (blank as 0) differs from received, and keep their entry otherwise; the reason box gets its "required" message iff failed > 0 without a reason |
| ReceivingPage.ValidateReceipt | src/components/pages/Receiving.jsx:63-104 | every box is flagged iff one of its checks fails and shows the last failed check's message: "… is required" for an empty box, "Must be a valid number" for an unreadable count, the sum message on both dose boxes whenever the counts do not balance, the reason message; the map is empty iff the form is valid |
| ReceivingPage.ReportedEmptyIffValid | src/components/pages/Receiving.jsx:63-104 | any map that reports a form's errors is empty iff the form is valid |
| ReceivingPage.UnbalancedCountsShowSumMessage | src/components/pages/Receiving.jsx:89-96 | readable counts that do not add up (5 + 3 of 10) put the sum message on both dose boxes |
| ReceivingPage.SubmissionData | src/components/pages/Receiving.jsx:116-122 | the four counts are sent as integers, without an id or status |
| ReceivingPage.ValidSubmissionIsPending | src/components/pages/Receiving.jsx:106-147 | a valid form is created iff quantitySent is not 0, as a pending receipt whose doses balance, carrying the form's date and a reason when doses failed |
| ReceivingPage.StatusBadge | src/components/pages/Receiving.jsx:169-182 | Multiple Issues, Quantity Discrepancy, Failed Inspection or Complete, each exactly on its combination of sent != received and failed > 0 |
| ReceivingPage.Page.HandleInputChange | src/components/pages/Receiving.jsx:149-167 | the form becomes AfterInput of the edit, and only the edited box's error is cleared |
| ReceivingPage.Page.HandleSubmit | src/components/pages/Receiving.jsx:106-147 | an invalid form shows the errors `validateForm` reports, messages included, and submits nothing; a valid one clears them, then is rejected iff quantitySent is 0, and otherwise records a pending, balanced receipt and resets the form |
| AdministrationPage.AfterInput | src/components/pages/Administration.jsx:220-238 | the edited field takes the value; choosing a vaccine fills the lot exactly when one lot is available |
| AdministrationPage.SearchAdministrations | src/components/pages/Administration.jsx:77-90 | keeps a record iff the lower-cased term occurs in vaccine, lot, age group or provider |
| AdministrationPage.EmptyTermKeepsAll | src/components/pages/Administration.jsx:78-81 | an empty term keeps every record in order |
| AdministrationPage.RequiredErrors | src/components/pages/Administration.jsx:99-104 | each required field gets its own "… is required" message iff it is empty |
| AdministrationPage.FormatErrors | src/components/pages/Administration.jsx:107-115 | dosesUsed gets "Must be a valid positive number" iff it is filled and not a positive number; the date gets "Administration date cannot be in the future" iff it is after today; every other entry is unchanged |
| AdministrationPage.LotErrors | src/components/pages/Administration.jsx:117-129 | the lot gets "Lot number not found …" iff vaccine and lot are given and no item matches both; the doses get "Only N doses available in inventory", N the lot's stock, iff they exceed it; every other entry is unchanged |
| AdministrationPage.ValidateAdministration | src/components/pages/Administration.jsx:96-133 | every field is flagged iff one of its checks fails and shows the last failed check's message: "… is required", "Must be a valid positive number" for 0, negative or unreadable doses, the future-date message, the lot-not-found message, "Only N doses available in inventory"; the map is empty iff the form is valid |
| AdministrationPage.SubmissionData | src/components/pages/Administration.jsx:142-145 | the form with dosesUsed parsed, sent without an id |
| AdministrationPage.ValidSubmissionKeepsStock | src/components/pages/Administration.jsx:127-129 | a valid form is accepted by create with its date, and the decremented lot is never negative |
| AdministrationPage.Page.HandleInputChange | src/components/pages/Administration.jsx:220-238 | the form becomes AfterInput of the edit, and only the edited field's error is cleared |
| AdministrationPage.Page.HandleEdit | src/components/pages/Administration.jsx:195-206 | opens the form on the record's fields |
| AdministrationPage.Page.HandleSubmit | src/components/pages/Administration.jsx:135-193 | invalid: the errors `validateForm` reports, messages included, nothing written, and the form and the edit mode kept; valid: the errors cleared, and then editing: an update and no stock change; new: the record and exactly the matching lot lowered by dosesUsed, never below 0, then the page reloads |
| LossPage.AfterInput | src/components/pages/LossReport.jsx:202-220 | the edited field takes the value; choosing a vaccine fills the lot exactly when one lot is available |
| LossPage.SearchLosses | src/components/pages/LossReport.jsx:82-94 | keeps a loss iff the lower-cased term occurs in vaccine, lot or reason |
| LossPage.EmptyTermKeepsAll | src/components/pages/LossReport.jsx:83-86 | an empty term keeps every loss in order |
| LossPage.TotalValueIsFiftyPerDose | src/components/pages/LossReport.jsx:301-302 | totalValue is 50 times totalLosses |
| LossPage.ValidIffChecksPass | src/components/pages/LossReport.jsx:100-146 | the form is valid iff every required, number, lot, stock, details and training check passes |
| LossPage.RequiredErrors | src/components/pages/LossReport.jsx:103-107 | each required field gets its own "… is required" message iff it is empty; details and training get none |
| LossPage.FormatErrors | src/components/pages/LossReport.jsx:110-118 | quantity gets "Must be a valid positive number" iff filled and not positive; the date gets "Reported date cannot be in the future" iff after today; every other entry is unchanged |
| LossPage.LotErrors | src/components/pages/LossReport.jsx:120-132 | the lot gets "Lot number not found …" iff the pair is not in inventory; the quantity gets "Only N doses available in inventory" iff it exceeds the lot's stock N; every other entry is unchanged |
| LossPage.PolicyErrors | src/components/pages/LossReport.jsx:135-145 | details get their message iff the reason is 'Other' and they are empty, and the training message appears iff training is not completed; every other entry is unchanged |
| LossPage.ValidateLoss | src/components/pages/LossReport.jsx:100-146 | every key is flagged iff one of its checks fails and shows the last failed check's message: "… is required", "Must be a valid positive number", the future-date message, the lot-not-found message, "Only N doses available in inventory", the details and training messages; the map is empty iff the form is valid |
| LossPage.SubmissionData | src/components/pages/LossReport.jsx:156-160 | the form with quantity parsed and the training flag, without an id |
| LossPage.ValidSubmissionKeepsStock | src/components/pages/LossReport.jsx:130-132 | a valid form is accepted by create as 'Unknown' wastage with training done, and the decremented lot is never negative |
| LossPage.Page.HandleInputChange | src/components/pages/LossReport.jsx:202-220 | the form becomes AfterInput of the edit, and only the edited field's error is cleared |
| LossPage.Page.HandleTrainingComplete | src/components/pages/LossReport.jsx:246-250 | training becomes completed, nothing else changes |
| LossPage.Page.HandleSubmit | src/components/pages/LossReport.jsx:148-200 | invalid: the errors `validateForm` reports, messages included, nothing written and the form kept open; valid: the errors cleared, and the loss and exactly the matching lot lowered by the quantity, never below 0, then the page reloads |
| InventoryPage.FamilyOf | src/components/pages/Inventory.jsx:84-89 | the family of the first vaccine named like the lot, present iff one exists |
| InventoryPage.StagesCompose | src/components/pages/Inventory.jsx:72-106 | the four successive filters equal one filter by their conjunction |
| InventoryPage.FilterInventory | src/components/pages/Inventory.jsx:72-106 | the shown list is the order-preserving filter of the inventory by all active stages |
| InventoryPage.ClearedFiltersShowAll | src/components/pages/Inventory.jsx:153-160 | with no term and no filters every lot is shown, in order |
| InventoryPage.AlertCounts | src/components/pages/Inventory.jsx:344-348 | the reduce's map has a level iff some lot is at it, and then holds that level's count |
| InventoryPage.AlertCountsCoverInventory | src/components/pages/Inventory.jsx:344-348 | the five levels' counts add up to the number of lots |
| InventoryPage.RequiredErrors | src/components/pages/Inventory.jsx:165-169 | each required field gets its own "… is required" message iff it is empty |
| InventoryPage.FormatErrors | src/components/pages/Inventory.jsx:171-179 | the quantity gets "Must be a valid positive number" iff it is unreadable or negative; the expiration date gets "Expiration date cannot be in the past" iff it is not after today; every other entry is unchanged |
| InventoryPage.ValidateInventory | src/components/pages/Inventory.jsx:162-183 | every field is flagged iff one of its checks fails and shows the last failed check's message: "… is required", the number message for an unreadable or negative quantity, the past-date message; the map is empty iff the form is valid |
| InventoryPage.SubmissionData | src/components/pages/Inventory.jsx:193-197 | the five form fields with the quantity parsed, no minimum stock or family |
| InventoryPage.ValidNewLotCreatedUnlessZero | src/components/pages/Inventory.jsx:199-206 | a valid new lot is created iff its quantity is not 0, with the form's fields, a fresh id and today's stamp |
| InventoryPage.EditRoundTrip | src/components/pages/Inventory.jsx:229-238 | editing a lot and saving unchanged sends back the same fields, accepted iff the id is not falsy |
| InventoryPage.Page.constructor | src/components/pages/Inventory.jsx:47-65 | after loading every lot is shown with no term or filters |
| InventoryPage.Page.HandleSearch | src/components/pages/Inventory.jsx:145-147 | sets the term and re-filters |
| InventoryPage.Page.HandleFilterChange | src/components/pages/Inventory.jsx:149-151 | changes one filter and re-filters |
| InventoryPage.Page.ClearFilters | src/components/pages/Inventory.jsx:153-160 | resets the term and the three filters, and shows every lot |
| InventoryPage.Page.HandleInputChange | src/components/pages/Inventory.jsx:253-260 | updates one field and clears only its error |
| InventoryPage.Page.HandleEdit | src/components/pages/Inventory.jsx:229-238 | opens the form on the lot's fields |
| InventoryPage.Page.HandleSubmit | src/components/pages/Inventory.jsx:185-227 | invalid: the errors `validateForm` reports, messages included, no service call, and the form, list, search and filters kept; valid: the errors cleared; editing: update under the lot's id; new: create; on success the form resets and the list reloads from the fixture, otherwise the list is kept |
| InventoryPage.Page.HandleDelete | src/components/pages/Inventory.jsx:241-251 | nothing without confirmation; otherwise the service's delete, and a reload on success |
| Reconciliation.NewEntry | src/components/pages/Reconciliation.jsx:37-44 | a lot's row: system count from stock, no physical count, difference 0, no reason, not reconciled |
| Reconciliation.WithCount | src/components/pages/Reconciliation.jsx:66-85 | a count c sets difference c - systemCount and reconciled iff it is 0, leaving the rest |
| Reconciliation.WithCountIdempotent | src/components/pages/Reconciliation.jsx:66-85 | setting the same count again changes nothing |
| Reconciliation.Progress | src/components/pages/Reconciliation.jsx:108-113 | the rounded percentage is within 0..100, 0 with no rows or no counts, 100 when all are counted, and within half a point of the exact ratio |
| Reconciliation.CalculateSummary | src/components/pages/Reconciliation.jsx:102-115 | totals, counted, reconciled and discrepancy counts, and the progress of counted over total |
| Reconciliation.SummaryBalances | src/components/pages/Reconciliation.jsx:102-115 | reconciled + discrepancies = counted <= total |
| Reconciliation.ValidateReconciliation | src/components/pages/Reconciliation.jsx:117-137 | empty iff a month is set, every row is counted and every differing row has a reason; otherwise one message per failed check, in that order |
| Reconciliation.UpdateFor | src/components/pages/Reconciliation.jsx:151-159 | a row's write is refused iff its lot's id is falsy, and otherwise is the lot with the counted quantity |
| Reconciliation.WriteCounts | src/components/pages/Reconciliation.jsx:149-162 | all writes succeed iff no differing row has a falsy id, and then they are exactly the differing rows' counted lots, in order |
| Reconciliation.Session.constructor | src/components/pages/Reconciliation.jsx:28-57 | one fresh row per lot, no counts, the current month, step Setup |
| Reconciliation.Session.LoadData | src/components/pages/Reconciliation.jsx:28-57 | rebuilds one row per lot of the fixture and sets the current month |
| Reconciliation.Session.SetPhysicalCount | src/components/pages/Reconciliation.jsx:63-86 | the lot's row takes the parsed count and every other row is unchanged; rows stay consistent |
| Reconciliation.Session.SetDiscrepancyReason | src/components/pages/Reconciliation.jsx:88-100 | only the lot's row changes, and only its reason |
| Reconciliation.Session.SetMonth | src/components/pages/Reconciliation.jsx:365-370 | sets the month, nothing else |
| Reconciliation.Session.GoToStep | src/components/pages/Reconciliation.jsx:329-349 | the step buttons set the step, nothing else |
| Reconciliation.Session.StartCounting | src/components/pages/Reconciliation.jsx:391-397 | on the setup step, moves to counting exactly when a month is set |
| Reconciliation.Session.ReviewAndFinalize | src/components/pages/Reconciliation.jsx:435-441 | on the counting step, moves to review exactly when some row is counted; the review opens on a summary where reconciled plus discrepancies equals the counted rows |
| Reconciliation.Session.HandleSubmit | src/components/pages/Reconciliation.jsx:139-177 | on the review step: with messages nothing is written; otherwise it fails iff a differing row's id is falsy, and it completes with exactly the differing rows written, then resets to Setup |
| Dashboard.LoadDashboard | src/components/pages/Dashboard.jsx:31-76 | lot count, dose total, expiring (<= today + 30) and low-stock (< 10) counts over all lots, the two lists being the first five matching lots in inventory order, at most 5 recent administrations |
| Dashboard.CountsCoverLists | src/components/pages/Dashboard.jsx:62-70 | the displayed lists are no longer than their counts, which are no more than the lots |
| Dashboard.RecentAreNewestFirst | src/components/pages/Dashboard.jsx:56-60 | the recent list is newest first, and a recent record left out means the list is full and its last entry is no older |
| Dashboard.ExpirationBadgeOf | src/components/pages/Dashboard.jsx:94-106 | expired below 0 days, an error badge up to 7, a warning badge up to 30 with the day count, good otherwise or without a date |
| Dashboard.BadgeAgreesWithAlertLevel | src/components/pages/Dashboard.jsx:94-106 | the badge and the inventory alert level agree on every lot |
| Dashboard.BadgedLotsAreExpiring | src/components/pages/Dashboard.jsx:45-49 | a lot has a dated badge iff it counts as expiring |
| DataTable.SortedData | src/components/molecules/DataTable.jsx:18-33 | no key or the empty (falsy) key: the data unchanged; otherwise a permutation of it |
| DataTable.SortedDataIsOrdered | src/components/molecules/DataTable.jsx:21-32 | when the key is not empty and holds values of one kind, the result is ordered by the key in the chosen direction |
| DataTable.ComparatorIsConsistent | src/components/molecules/DataTable.jsx:20-31 | on a column of one kind the comparator is total and transitive |
| DataTable.TiesAreEqualValues | src/components/molecules/DataTable.jsx:20-31 | the comparator returns 0 both ways exactly when the two rows hold the same value |
| DataTable.SortedDataIsStable | src/components/molecules/DataTable.jsx:20-31 | under a non-empty key of one kind, rows holding the same value keep their data order in the sorted copy |
| DataTable.StaysBeforeIsInOrder | src/components/molecules/DataTable.jsx:21-32 | the comparator keeps a pair in place iff the two values are in order for the direction |
| DataTable.InOrderTotal | src/components/molecules/DataTable.jsx:21-32 | any two values are in order one way or the other |
| DataTable.InOrderTransitive | src/components/molecules/DataTable.jsx:21-32 | being in order is transitive for values of one kind |
| DataTable.NextSortConfig | src/components/molecules/DataTable.jsx:38-41 | the key becomes the clicked one, descending iff it already was the key and ascending |
| DataTable.ClicksAlternate | src/components/molecules/DataTable.jsx:38-41 | clicking the same column flips the direction each time |
| DataTable.SortIconOf | src/components/molecules/DataTable.jsx:44-47 | up-down for other columns, up or down for the key by direction |
| DataTable.ClickedColumnShowsDirection | src/components/molecules/DataTable.jsx:35-47 | after a click the clicked column shows a direction and every other column shows up-down |
| DataTable.Table.HandleSort | src/components/molecules/DataTable.jsx:35-42 | a sortable table takes the next configuration; an unsortable one keeps its own |
| DataTable.Table.Displayed | src/components/molecules/DataTable.jsx:18-33 | the rows shown are a permutation of the data, unchanged with no key or the empty key |
| DataTable.Table.Icon | src/components/molecules/DataTable.jsx:44-47 | up-down exactly for columns other than the key |
| Reports.StatusNameReadsBack | src/components/pages/Reports.jsx:127-137 | each status name stands for exactly its level |
| Reports.CoveredBy | src/components/pages/Reports.jsx:93-125 | the inventory report keeps a lot iff vaccine, location and status all match; the dated reports keep a record iff it is dated within the range and of the chosen vaccine; the summary report keeps nothing |
| Reports.WiderRangeCoversMore | src/components/pages/Reports.jsx:106-120 | widening the date range never drops a record |
| Reports.ReportContent | src/components/pages/Reports.jsx:308-343 | the report's headers and, in order, one row per covered record holding that record's fields, as wide as the headers; no content exactly when some covered record lacks its date |
| Reports.GenerateReport | src/components/pages/Reports.jsx:286-306 | the downloaded text is `createCSV` of the content, or 'Failed to generate report' exactly when content fails; the summary report downloads the no-data message |
| Reports.AdministrationCsvReadsBack | src/components/pages/Reports.jsx:321-330 | read back, the administration CSV is the header line and each covered record's date, vaccine, lot, age group, doses and provider, in order |
| Reports.AdministrationReportReadsBack | src/components/pages/Reports.jsx:321-330 | the administration report of dated, plain records reads back as its headers and the records' texts |
| Reports.AdministrationRowIsPlain | src/components/pages/Reports.jsx:321-330 | a plain record's row holds no quote or line break, and its texts are the record's six fields |
| Reports.LossCsvReadsBack | src/components/pages/Reports.jsx:332-341 | read back, the loss CSV is the header line and each covered loss's date, vaccine, lot, quantity, reason and details, in order |
| Reports.LossReportReadsBack | src/components/pages/Reports.jsx:332-341 | the loss report of dated, plain losses reads back as its headers and the losses' texts |
| Reports.LossRowIsPlain | src/components/pages/Reports.jsx:332-341 | a plain loss's row holds no quote or line break, and its texts are the loss's six fields |
| Reports.PlainRowsReadBack | src/components/pages/Reports.jsx:345-365 | a report with plain headers and cells reads back as its headers and its rows' texts |
| Reports.InventoryCsvReadsBack | src/components/pages/Reports.jsx:286-365 | read back, the inventory CSV is the header line and each covered lot's vaccine, lot, quantity, date, location and status, in order |
| Reports.Summarize | src/components/pages/Reports.jsx:392-423 | totals are the covered counts; expired + critical <= total; doses are the sums; distinct vaccines <= records; the loss value is 50 per dose |
| Reports.VaccineMentionsNamed | src/components/pages/Reports.jsx:426-430 | the vaccines mentioned by the three lists, concatenated, are exactly those some lot, administration or loss names |
| Reports.UniqueVaccines | src/components/pages/Reports.jsx:426-430 | no duplicates, holds a vaccine iff a lot, administration or loss names it, in the order of first mention |
| Reports.UniqueLocations | src/components/pages/Reports.jsx:432 | no duplicates, holds a location iff some lot is there, in the order of first appearance, and no longer than the inventory |
| Csv.FieldText | src/components/pages/Reports.jsx:357-359 | a text holding a comma is wrapped in quotes; anything else is written as it is |
| Csv.CreateCsv | src/components/pages/Reports.jsx:345-365 | the no-data message without rows; otherwise the header line and one line per row, joined by line breaks |
| Csv.CsvReadsBack | src/components/pages/Reports.jsx:345-365 | when no text holds a quote or line break and no header a comma, reading the CSV back gives the headers and every row's texts |
| Csv.RowReadsBack | src/components/pages/Reports.jsx:355-361 | one row's line reads back as the row's texts and holds no line break |
| Csv.ReadLine | src/components/pages/Reports.jsx:356-361 | a line of encoded fields joined by commas reads back as the fields' texts |
| Csv.SplitJoin | src/components/pages/Reports.jsx:364 | splitting lines joined by line breaks gives the lines back |

## Left out

- Rendering, styling, toasts, animations and the loading and error screens are not modelled.
  The `submitting` and `generating` flags only disable buttons while a call is pending.
- The services' delays and the pages' `async`/`await` are not modelled. The calls are
  sequential and each succeeds or rejects. The reconciliation's `Promise.all` is modelled as
  every write being issued and the whole failing when one is refused.
- `window.confirm` in the inventory delete is a boolean parameter. The training checkbox read
  from the DOM is modelled as the `trainingCompleted` flag.
- The clock is left out. Today, the current month (`YYYY-MM`) and the timestamp used as a fresh
  id are parameters.
- Date formatting with `format(date, 'MM/dd/yyyy')` is a parameter function. A date box holds a
  date or nothing: an unparsable date and the time of day are not modelled.
- Boxes holding text like "12abc" (where `isNaN` and `parseInt` disagree) or decimals are not
  modelled. A box is empty, an integer or not a number.
- Floating-point values are not modelled: the receipt rates and `averageDosesPerRecord`, and
  the dollar `value` sums in the loss summary. `Math.round` of the progress percentage is done
  on exact fractions.
- The literal records in each `getAll` are not modelled. Each service reads a fixture
  parameter instead.
- Record ids: the pages read `item.Id` while the services' records carry `id`. The model has a
  single `id` field. Read as written, `Id` would be undefined on every record, so every
  reconciliation row would match every lot.
- Vaccine names: the inventory page matches lots against `commercialName`, a field the vaccine
  service's records do not carry. The model uses the one `name` field. As written, the family
  column would show 'Unknown' and a family filter would hide every lot.
- The inventory submit sends no `minimumStock` or `vaccineFamily`. The model sends 0 and ''
  for them, as the service would store nothing else.
- The CSV reader is only the partner for the proofs. It does not read doubled quotes, which
  `createCSV` never writes: the round trip is proved for texts without quotes or line breaks.
- Text.ToLower: `toLowerCase` is modelled for these capitals only: A-Z; Latin-1 U+00C0-U+00DE
  but U+00D7; Greek U+0386, U+0388-U+038A, U+038C, U+038E-U+038F, and U+0391-U+03AB but
  U+03A2; Cyrillic U+0400-U+042F, U+04C0, and the capitals of the capital-small pairs in
  U+0460-U+0481, U+048A-U+04BF, U+04C1-U+04CE and U+04D0-U+052F. Other capitals are kept as
  they are. This covers the rest of Greek (U+03CF, U+03D8-U+03EF, U+03F4 and others), Latin
  Extended, Armenian and Georgian. The final-sigma rule is not
  modelled: JavaScript lowers a word-final 'Σ' to 'ς', the model to 'σ'. Mappings that change
  the length, such as 'İ' to "i̇", are not modelled either. So the Administration, Loss Report
  and Inventory searches can miss a record the page would find when the text holds such a
  capital.
- DataTable: mixed-kind comparisons (a number against a string, or an undefined field) are
  modelled as "not below" in both directions, and numeric strings are compared as strings.
  The ordering lemma is stated for columns of one kind.
- Reports.Summarize: the date-range label of the summary card is text formatting and is not
  modelled.
- The reconciliation count box shows `physicalCounts[id] \|\| ''`, which is display only.
- The Administration page's `handleDelete` and the inventory page's per-family and per-location
  option lists are display and service echo, and are not modelled.
- `lossService.getReasons` returns a constant list and is not modelled. The inventory page's
  `getAlertBadge` only maps a level to a colour and is not modelled.
