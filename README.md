# UPVC window-fabrication ERP: a Dafny model of its business rules

ShayonaWindowsIMS is a single-user, browser-resident ERP for a UPVC window
fabricator. It covers enquiries, quotations, sales orders, purchasing,
inventory, fabrication cutting lists, dispatch, installation and warranty.
Its business logic is a set of small sequential rules over one in-memory
store. This project models those rules in Dafny and proves what they promise.

- **The store (`Api`, store.dfy).** This is `services/api.ts`. A class
  `Database` holds one sequence per collection. Each add, update and delete
  changes its collection and ends in the persistence step. That step keeps
  a daily valuation history (`Valuation`, valuation.dfy): it overwrites
  today's entry, or appends one and keeps the last 30. Two cascades are
  modelled:
  - creating a quotation marks its enquiry `Quoted`;
  - moving a purchase order into `Received` credits stock, in a loop, once
    per transition.

  A catalog import skips codes that are already present, ignoring case.
- **The activity log (`DataContext`).** This is `contexts/DataContext.tsx`.
  A class `Context` wraps every store call with the log entry the source
  appends, under the same condition:
  - always;
  - only when the payload carries a status;
  - or only when the status is `Received`.

  Restore and reset are modelled too.
- **Page handlers.** Each page's form is a class whose methods are its
  handlers:
  - quotation costing, adding items and approval (`QuotationDetail`);
  - enquiries and quotation seeding (`Enquiries`);
  - the cutting list (`CuttingList`);
  - purchase orders (`PurchaseOrders`);
  - the inventory filter and the add-or-merge-by-SKU rule (`InventoryPage`);
  - catalog import and backup restore (`Settings`);
  - dispatch, installation scheduling, installation completion and warranty
    claims.
- **Derived views.** These are pure functions with lemmas about what they
  mean: dashboard statistics, the top-five chart, the category chart, the
  order timeline, order progress and global search.
- **CSV handling.** `Csv` models the import parser and the JSON-based
  exporter of `services/utils.ts`. `ExportModal` models the quoted CSV
  writer and the section logic of the export dialog.
- **Small containers.** The notification centre and the toast queue are
  classes over a sequence.
- **Support modules.** `Types` holds the entities, `Constants` the status
  lists and the navigation role table, and `Patches` the partial-update
  payloads (`{...old, ...updates}`). `Text` holds the string built-ins the
  source relies on and `Collections` its array built-ins.

Clock readings and random ids are inputs. An `Env` value carries the ISO
time of a call and the base-36 digits `Math.random` would have produced.
Confirmation dialogs are boolean inputs. A file's contents and the result of
`JSON.parse` are parameters.

Two behaviours worth stating plainly:

- Completing an installation appends two log entries, `Installation
  Completed` and `Order Status Updated`.
- A new purchase order is created `Ordered`.

## Model

| member | source | states |
|---|---|---|
| Types.InventoryValueAppend | ShayonaWindowsIMS/services/api.ts:15 | the stock value (sum of quantity times cost) of two lists put together is the sum of their values |
| Valuation.DateOf | ShayonaWindowsIMS/services/api.ts:13 | today's date is a prefix of the ISO timestamp and contains no `T` |
| Valuation.RecordSnapshot | ShayonaWindowsIMS/services/api.ts:17-24 | after a snapshot the history is non-empty and its last entry is today's date with the current value |
| Valuation.SnapshotKeepsEarlierEntries | ShayonaWindowsIMS/services/api.ts:17-24 | if the last entry is today's, only its value changes; otherwise today's entry is appended and every earlier entry is kept, except that the oldest is dropped once the window of 30 is full |
| Valuation.SnapshotBounded | ShayonaWindowsIMS/services/api.ts:19-20 | a snapshot adds at most one entry, and a history of at most 30 entries stays within 30 |
| Valuation.SnapshotSameDay | ShayonaWindowsIMS/services/api.ts:17-24 | two snapshots on the same day equal one snapshot with the later value |
| Valuation.SnapshotDistinctDates | ShayonaWindowsIMS/services/api.ts:17-24 | a history with distinct dates, where only the last entry may be dated today, keeps distinct dates after a snapshot |
| Valuation.Persisted | ShayonaWindowsIMS/services/api.ts:11-28 | persisting changes only the history, which receives a snapshot of the current stock value |
| Api.GenerateId | ShayonaWindowsIMS/services/api.ts:30 | an id is the prefix, a dash, then at most nine characters with no lower-case letters |
| Api.GenerateIdLength | ShayonaWindowsIMS/services/api.ts:30 | a draw of `0.` and at least nine digits gives exactly nine id characters after the dash |
| Api.SeedData | ShayonaWindowsIMS/data/mockData.ts:3-20 | every collection of the seed is empty except the log, which holds one `System Initialized` entry by `System` stamped with the load time |
| Api.StockValue | ShayonaWindowsIMS/services/api.ts:15 | the loop over inventory computes the stock value |
| Api.Database.constructor | ShayonaWindowsIMS/services/api.ts:8 | the store starts from the saved data when there is some, else from the seed |
| Api.Database.Persist | ShayonaWindowsIMS/services/api.ts:11-28 | the history is updated in place as the snapshot rule says, and nothing else changes |
| Api.Database.GetInitialData | ShayonaWindowsIMS/services/api.ts:39 | returns the whole current store |
| Api.Database.SetInitialData | ShayonaWindowsIMS/services/api.ts:41-44 | the store becomes the given data, then is persisted |
| Api.Database.AddEnquiry | ShayonaWindowsIMS/services/api.ts:48-53 | appends the enquiry under a fresh `ENQ` id, returns it and persists |
| Api.Database.UpdateEnquiry | ShayonaWindowsIMS/services/api.ts:54-58 | merges the payload into every enquiry with that id, persists, and returns the first such enquiry if any |
| Api.Database.AddQuotation | ShayonaWindowsIMS/services/api.ts:60-68 | appends the quotation under a fresh `QT` id and marks its enquiry `Quoted` |
| Api.MarkQuoted | ShayonaWindowsIMS/services/api.ts:64-65 | keeps the number of enquiries |
| Api.MarkQuotedEffect | ShayonaWindowsIMS/services/api.ts:64-65 | the first enquiry with the quotation's enquiry id becomes `Quoted`; every other enquiry, a later one with the same id included, is unchanged; a missing enquiry changes nothing |
| Api.Database.UpdateQuotation | ShayonaWindowsIMS/services/api.ts:69-73 | merges the payload into the quotations with that id, persists, and returns the first |
| Api.Database.AddSalesOrder | ShayonaWindowsIMS/services/api.ts:75-80 | appends the order under a fresh `SO` id and persists |
| Api.Database.UpdateSalesOrder | ShayonaWindowsIMS/services/api.ts:81-85 | merges the payload into the orders with that id and persists |
| Api.Database.AddInventoryItem | ShayonaWindowsIMS/services/api.ts:87-92 | appends the item under a fresh `INV` id and persists |
| Api.Database.UpdateInventoryItem | ShayonaWindowsIMS/services/api.ts:93-97 | merges the payload into the items with that id and persists |
| Api.Database.DeleteInventoryItem | ShayonaWindowsIMS/services/api.ts:98-101 | removes every item with that id, keeps the rest in order, and persists |
| Api.Database.AddCustomer | ShayonaWindowsIMS/services/api.ts:103-108 | appends the customer under a fresh `CUST` id and persists |
| Api.Database.UpdateCustomer | ShayonaWindowsIMS/services/api.ts:109-113 | merges the payload into the customers with that id and persists |
| Api.Database.DeleteCustomer | ShayonaWindowsIMS/services/api.ts:114-117 | removes every customer with that id and persists |
| Api.Database.AddSupplier | ShayonaWindowsIMS/services/api.ts:119-124 | appends the supplier under a fresh `SUP` id and persists |
| Api.Database.UpdateSupplier | ShayonaWindowsIMS/services/api.ts:125-129 | merges the payload into the suppliers with that id and persists |
| Api.Database.DeleteSupplier | ShayonaWindowsIMS/services/api.ts:130-133 | removes every supplier with that id and persists |
| Api.Database.AddPurchaseOrder | ShayonaWindowsIMS/services/api.ts:135-140 | appends the order under a fresh `PO` id and persists |
| Api.Database.UpdatePurchaseOrder | ShayonaWindowsIMS/services/api.ts:141-156 | merges the payload and credits stock by the loop exactly when the order moves into `Received`, then persists and returns the order now under the id; when no order is left under the id it fails with a TypeError before persisting, unless the stored order was already `Received`, in which case it persists and returns nothing |
| Api.ReceivedMovedOffIdDoesNotThrow | ShayonaWindowsIMS/services/api.ts:141-156 | a payload that moves an already `Received` order to another id does not throw, finds nothing under the id and moves no stock |
| Api.UpdatePurchaseOrders | ShayonaWindowsIMS/services/api.ts:141-153 | keeps the number of orders; an unknown id changes nothing, finds nothing and throws; the call throws exactly when nothing is left under the id and the stored order was not `Received`; stock changes only when an order moved into `Received` |
| Api.Receive | ShayonaWindowsIMS/services/api.ts:147-152 | crediting the lines keeps the number of inventory items |
| Api.ReceiveKeepsItems | ShayonaWindowsIMS/services/api.ts:147-151 | crediting changes only quantities: every other field of every item is kept |
| Api.ReceiveEffect | ShayonaWindowsIMS/services/api.ts:147-151 | each item gains the summed quantity of all lines naming it (an id on two lines gets both) when it is the first item with that id; lines with unknown ids are skipped |
| Api.CreditEach | ShayonaWindowsIMS/services/api.ts:147-152 | the loop over the lines computes exactly the credited inventory |
| Api.AlreadyReceivedCreditsNothing | ShayonaWindowsIMS/services/api.ts:146 | an order that was already `Received` credits no stock |
| Api.ReceiveTwiceCreditsOnce | ShayonaWindowsIMS/services/api.ts:146 | a second `Received` update of the same order leaves stock as the first left it |
| Api.Database.AddProductionJob | ShayonaWindowsIMS/services/api.ts:158-163 | appends the job under a fresh `PROD` id and persists |
| Api.Database.UpdateProductionJob | ShayonaWindowsIMS/services/api.ts:164-168 | merges the payload into the jobs with that id and persists |
| Api.Database.AddDispatch | ShayonaWindowsIMS/services/api.ts:170-175 | appends the dispatch under a fresh `DISP` id and persists |
| Api.Database.AddInstallation | ShayonaWindowsIMS/services/api.ts:177-182 | appends the installation under a fresh `INST` id and persists |
| Api.Database.UpdateInstallation | ShayonaWindowsIMS/services/api.ts:183-187 | merges the payload into the installations with that id and persists |
| Api.Database.AddWarrantyClaim | ShayonaWindowsIMS/services/api.ts:189-194 | appends the claim under a fresh `WARR` id and persists |
| Api.Database.UpdateWarrantyClaim | ShayonaWindowsIMS/services/api.ts:195-199 | merges the payload into the claims with that id and persists |
| Api.Database.AddActivityLog | ShayonaWindowsIMS/services/api.ts:201-206 | appends one entry with a fresh `LOG` id and the call's timestamp, and persists |
| Api.WithLog | ShayonaWindowsIMS/services/api.ts:203 | appending a log entry changes only the log, by exactly that entry |
| Api.Database.AddToCatalog | ShayonaWindowsIMS/services/api.ts:208-216 | the catalog becomes the merge of the submitted items, then the store is persisted |
| Api.CatalogMerge | ShayonaWindowsIMS/services/api.ts:209-214 | the old catalog is kept as a prefix, and only submitted items are appended |
| Api.CatalogMergeUnique | ShayonaWindowsIMS/services/api.ts:210 | a catalog whose codes are distinct ignoring case stays so |
| Api.CatalogMergeCovers | ShayonaWindowsIMS/services/api.ts:209-214 | after the merge every submitted code is present, ignoring case |
| Api.CatalogMergeSplit | ShayonaWindowsIMS/services/api.ts:209-214 | merging a batch equals merging its halves in turn, so codes added earlier in a batch are skipped later in it |
| Api.CatalogMergeAppendsFresh | ShayonaWindowsIMS/services/api.ts:209-214 | the merge appends, in order, exactly the items whose code is new at their turn |
| Api.SameKeysSameFirstIndex | ShayonaWindowsIMS/services/api.ts:148 | crediting keeps ids, so the item found for an id does not move |
| Patches.WholeQuotationMerge | ShayonaWindowsIMS/pages/enquiries/QuotationDetailPage.tsx:65 | a payload carrying every field of a quotation replaces the record with it |
| Patches.WholeInventoryItemMerge | ShayonaWindowsIMS/pages/inventory/InventoryListPage.tsx:229-231 | a payload carrying every field of an item replaces the record with it |
| Collections.FirstIndex | ShayonaWindowsIMS/services/api.ts:57 | the position found is the first with the key, and none exists when nothing is found |
| Collections.FindFirst | ShayonaWindowsIMS/services/api.ts:57 | something is found exactly when some element has the key, and it has that key |
| Collections.MapWhereKeepsPositions | ShayonaWindowsIMS/services/api.ts:55 | an update changes exactly the elements with the id, each in place |
| Collections.MapWhereUnknownId | ShayonaWindowsIMS/services/api.ts:55 | an update with an unknown id leaves the collection unchanged |
| Collections.MapWhereFindFirst | ShayonaWindowsIMS/services/api.ts:55-57 | after an update the record returned is the merged first record with the id |
| Collections.FilterOutMembership | ShayonaWindowsIMS/services/api.ts:99 | a delete keeps exactly the elements without the id |
| Collections.FilterOutUnknownId | ShayonaWindowsIMS/services/api.ts:99 | deleting an unknown id changes nothing |
| Collections.FilterOutIdempotent | ShayonaWindowsIMS/services/api.ts:99 | deleting the same id twice is deleting it once |
| Collections.Distinct | ShayonaWindowsIMS/pages/dashboard/DashboardPage.tsx:25 | the distinct values are exactly the values of the list, each once |
| Collections.DistinctInFirstAppearanceOrder | ShayonaWindowsIMS/pages/dashboard/DashboardPage.tsx:25 | the distinct values come in the order of their first appearance in the list |
| Collections.Count | ShayonaWindowsIMS/pages/dashboard/DashboardPage.tsx:38 | a count is zero exactly when no element qualifies and full exactly when all do |
| Collections.FilterMapMembership | ShayonaWindowsIMS/pages/settings/SettingsPage.tsx:72-77 | a value is kept exactly when some element maps to it |
| DataContext.LogUser | ShayonaWindowsIMS/contexts/DataContext.tsx:93-99 | the logged user is the signed-in user's name, or `System` when nobody is signed in |
| DataContext.LogEntry | ShayonaWindowsIMS/contexts/DataContext.tsx:93-99 | an entry carries that user, the action, the details and the call's time |
| DataContext.Logged | ShayonaWindowsIMS/contexts/DataContext.tsx:93-99 | logging appends exactly one entry |
| DataContext.Context.constructor | ShayonaWindowsIMS/contexts/DataContext.tsx:93 | the context works on the given store for the given user |
| DataContext.Context.LogAction | ShayonaWindowsIMS/contexts/DataContext.tsx:93-99 | the store gains exactly the one log entry |
| DataContext.Context.AddEnquiry | ShayonaWindowsIMS/contexts/DataContext.tsx:104-108 | the enquiry is added, then one `Enquiry Created` entry is logged |
| DataContext.Context.UpdateEnquiry | ShayonaWindowsIMS/contexts/DataContext.tsx:109-112 | the enquiry is updated and nothing is logged |
| DataContext.Context.AddQuotation | ShayonaWindowsIMS/contexts/DataContext.tsx:113-117 | the quotation is added with its enquiry cascade, then one entry is logged |
| DataContext.Context.UpdateQuotation | ShayonaWindowsIMS/contexts/DataContext.tsx:118-124 | the quotation is updated, and an entry is logged only when the payload carries a status |
| DataContext.Context.AddSalesOrder | ShayonaWindowsIMS/contexts/DataContext.tsx:125-129 | the order is added, then one entry is logged |
| DataContext.Context.UpdateSalesOrder | ShayonaWindowsIMS/contexts/DataContext.tsx:130-136 | the order is updated, and an entry is logged only when the payload carries a status |
| DataContext.Context.AddInventoryItem | ShayonaWindowsIMS/contexts/DataContext.tsx:137-141 | the item is added, then one entry is logged |
| DataContext.Context.UpdateInventoryItem | ShayonaWindowsIMS/contexts/DataContext.tsx:142-146 | the item is updated and its new quantity logged; when no item has the id, reading it throws after the store has persisted and nothing is logged |
| DataContext.Context.DeleteInventoryItem | ShayonaWindowsIMS/contexts/DataContext.tsx:147-150 | the item is deleted, then one entry is logged |
| DataContext.Context.AddCustomer | ShayonaWindowsIMS/contexts/DataContext.tsx:151-155 | the customer is added, then one entry is logged |
| DataContext.Context.UpdateCustomer | ShayonaWindowsIMS/contexts/DataContext.tsx:156 | the customer is updated and nothing is logged |
| DataContext.Context.DeleteCustomer | ShayonaWindowsIMS/contexts/DataContext.tsx:157-160 | the customer is deleted, then one entry is logged |
| DataContext.Context.AddSupplier | ShayonaWindowsIMS/contexts/DataContext.tsx:161-165 | the supplier is added, then one entry is logged |
| DataContext.Context.UpdateSupplier | ShayonaWindowsIMS/contexts/DataContext.tsx:166 | the supplier is updated and nothing is logged |
| DataContext.Context.DeleteSupplier | ShayonaWindowsIMS/contexts/DataContext.tsx:167-170 | the supplier is deleted, then one entry is logged |
| DataContext.Context.AddPurchaseOrder | ShayonaWindowsIMS/contexts/DataContext.tsx:171-175 | the order is added, then one entry is logged |
| DataContext.Context.UpdatePurchaseOrder | ShayonaWindowsIMS/contexts/DataContext.tsx:176-182 | the order is updated with its receipt cascade and the store's result is passed back; `PO Received` is logged whenever the store does not throw and the payload status is `Received` |
| DataContext.Context.AddProductionJob | ShayonaWindowsIMS/contexts/DataContext.tsx:183-187 | the job is added, then one entry is logged |
| DataContext.Context.UpdateProductionJob | ShayonaWindowsIMS/contexts/DataContext.tsx:188 | the job is updated and nothing is logged |
| DataContext.Context.AddDispatch | ShayonaWindowsIMS/contexts/DataContext.tsx:189-193 | the dispatch is added, then one entry is logged |
| DataContext.Context.AddInstallation | ShayonaWindowsIMS/contexts/DataContext.tsx:194-198 | the installation is added, then one entry is logged |
| DataContext.Context.UpdateInstallation | ShayonaWindowsIMS/contexts/DataContext.tsx:199-205 | the installation is updated, and `Installation Completed` is logged only when the payload status is `Completed`; completing an id that is not stored throws after persisting |
| DataContext.Context.AddWarrantyClaim | ShayonaWindowsIMS/contexts/DataContext.tsx:206-210 | the claim is added, then one entry is logged |
| DataContext.Context.UpdateWarrantyClaim | ShayonaWindowsIMS/contexts/DataContext.tsx:211 | the claim is updated and nothing is logged |
| DataContext.Context.GetFreshData | ShayonaWindowsIMS/contexts/DataContext.tsx:212-214 | returns the current store |
| DataContext.Context.LoadBackup | ShayonaWindowsIMS/contexts/DataContext.tsx:215-219 | the store becomes the backup plus one `Data Restore` entry |
| DataContext.Context.ResetData | ShayonaWindowsIMS/contexts/DataContext.tsx:220-227 | a declined reset changes nothing; a confirmed one installs the seed and logs `System Reset` |
| DataContext.Context.AddToCatalog | ShayonaWindowsIMS/contexts/DataContext.tsx:228-231 | the items are merged into the catalog, then one entry is logged |
| DataContext.StatusUpdatesLogOnlyWithStatus | ShayonaWindowsIMS/contexts/DataContext.tsx:118-136 | quotation and order updates add a log entry exactly when the payload carries a status |
| DataContext.SilentUpdatesLogNothing | ShayonaWindowsIMS/contexts/DataContext.tsx:109-112 | updates of enquiries, customers, suppliers, production jobs and warranty claims leave the log as it was |
| DataContext.ReceivedLoggedWithoutCredit | ShayonaWindowsIMS/contexts/DataContext.tsx:176-182 | re-sending `Received` for an order already received credits nothing but still logs `PO Received`, also when the payload moves the order to another id |
| DataContext.CatalogLogCountsSubmitted | ShayonaWindowsIMS/contexts/DataContext.tsx:228-231 | for every store and batch, one `Catalog Imported` entry counts the submitted items, the catalog is the merge, and a batch of known codes leaves the catalog unchanged yet is still logged |
| DataContext.CatalogLogOvercounts | ShayonaWindowsIMS/contexts/DataContext.tsx:228-231 | an instance: a batch whose only code is already present adds nothing and is logged as one item |
| DataContext.ResetOutcome | ShayonaWindowsIMS/contexts/DataContext.tsx:220-227 | a confirmed reset gives the seed with one `System Reset` entry, whatever the store held before; a declined one changes nothing |
| QuotationDetail.CalculateItemCost | ShayonaWindowsIMS/pages/enquiries/QuotationDetailPage.tsx:37-52 | a missing profile or glass gives cost 0 |
| QuotationDetail.UnknownHardwareCostsNothing | ShayonaWindowsIMS/pages/enquiries/QuotationDetailPage.tsx:46-49 | a hardware id not in inventory adds nothing to the cost |
| QuotationDetail.HardwareCostNonNegative | ShayonaWindowsIMS/pages/enquiries/QuotationDetailPage.tsx:46-49 | hardware costs are non-negative when inventory costs are |
| QuotationDetail.CostExample | ShayonaWindowsIMS/pages/enquiries/QuotationDetailPage.tsx:42-51 | illustration only: a 1000 by 1200 window with profile rate 200 and glass rate 500 costs 2184 |
| QuotationDetail.WindowCostNonNegative | ShayonaWindowsIMS/pages/enquiries/QuotationDetailPage.tsx:42-50 | the cost of one window is non-negative for non-negative sizes and rates |
| QuotationDetail.CostNonNegative | ShayonaWindowsIMS/pages/enquiries/QuotationDetailPage.tsx:42-51 | a line's cost is non-negative for non-negative sizes, rates and quantity |
| QuotationDetail.CostLinearInQuantity | ShayonaWindowsIMS/pages/enquiries/QuotationDetailPage.tsx:51 | a line costs its quantity times the cost of one window |
| QuotationDetail.NewItem | ShayonaWindowsIMS/pages/enquiries/QuotationDetailPage.tsx:54-58 | a new item carries its computed cost and a `QTI-` id |
| QuotationDetail.WithItemTotals | ShayonaWindowsIMS/pages/enquiries/QuotationDetailPage.tsx:59-64 | adding an item appends it and keeps the totals consistent (total is the sum of costs, fee 15 %, grand total their sum), changing nothing else |
| QuotationDetail.AddItemLogsStatus | ShayonaWindowsIMS/pages/enquiries/QuotationDetailPage.tsx:65 | adding an item stores the new quotation and, since the whole record carries a status, logs one status update |
| QuotationDetail.HandleAddItem | ShayonaWindowsIMS/pages/enquiries/QuotationDetailPage.tsx:54-68 | the quotation gains the new item with recomputed totals and is stored |
| QuotationDetail.HandleMarkSent | ShayonaWindowsIMS/pages/enquiries/QuotationDetailPage.tsx:96 | the quotation's status is set to `Sent` |
| QuotationDetail.ActionsMoveForward | ShayonaWindowsIMS/pages/enquiries/QuotationDetailPage.tsx:96-97 | an action never moves the status back; Add Item and Mark as Sent are offered only in Draft and Approve only in Sent |
| QuotationDetail.NoWayBack | ShayonaWindowsIMS/pages/enquiries/QuotationDetailPage.tsx:96-114 | no sequence of offered actions returns a quotation to an earlier status |
| QuotationDetail.ApproveOrders | ShayonaWindowsIMS/pages/enquiries/QuotationDetailPage.tsx:73-81 | approval creates one `Pending` sales order for the grand total and items, logged after the status update, and stock is untouched |
| QuotationDetail.ApproveQuotation | ShayonaWindowsIMS/pages/enquiries/QuotationDetailPage.tsx:72 | approval marks the stored quotation `Approved` |
| QuotationDetail.ApproveEnquiry | ShayonaWindowsIMS/pages/enquiries/QuotationDetailPage.tsx:82 | approval closes the quotation's enquiry |
| QuotationDetail.ApproveOutcome | ShayonaWindowsIMS/pages/enquiries/QuotationDetailPage.tsx:70-84 | the three effects of approval together |
| QuotationDetail.HandleApprove | ShayonaWindowsIMS/pages/enquiries/QuotationDetailPage.tsx:70-84 | the three store calls of approval, in order |
| Enquiries.FirstMatch | ShayonaWindowsIMS/pages/enquiries/EnquiriesListPage.tsx:38-39 | the first customer whose name equals the enquiry's ignoring case or whose phone equals its contact, or none when no customer matches |
| Enquiries.CustomerIdFor | ShayonaWindowsIMS/pages/enquiries/EnquiriesListPage.tsx:38-42 | the quotation goes to the first matching customer, else to `CUST-NEW` |
| Enquiries.SeedIsEmptyDraft | ShayonaWindowsIMS/pages/enquiries/EnquiriesListPage.tsx:41-50 | the seeded quotation references the enquiry, is a Draft dated today with no items and all totals 0 |
| Enquiries.CreateQuotationWithdrawsOffer | ShayonaWindowsIMS/pages/enquiries/EnquiriesListPage.tsx:37-52 | after creating a quotation the enquiry is `Quoted`, so Create Quotation is no longer offered, and the seed is appended |
| Enquiries.HandleCreateQuotation | ShayonaWindowsIMS/pages/enquiries/EnquiriesListPage.tsx:37-52 | the seeded quotation is stored under a fresh id |
| Enquiries.EnquiryForm.constructor | ShayonaWindowsIMS/pages/enquiries/EnquiriesListPage.tsx:15-20 | the form starts closed and blank, dated today |
| Enquiries.EnquiryForm.Open | ShayonaWindowsIMS/pages/enquiries/EnquiriesListPage.tsx:22 | opening keeps the fields |
| Enquiries.EnquiryForm.Close | ShayonaWindowsIMS/pages/enquiries/EnquiriesListPage.tsx:23-26 | closing resets every field, with today's date |
| Enquiries.EnquiryForm.Change | ShayonaWindowsIMS/pages/enquiries/EnquiriesListPage.tsx:28-30 | an edit overwrites only the named field |
| Enquiries.EnquiryForm.Submitted | ShayonaWindowsIMS/pages/enquiries/EnquiriesListPage.tsx:33 | the submitted enquiry carries the fields with status `New` |
| Enquiries.EnquiryForm.Submit | ShayonaWindowsIMS/pages/enquiries/EnquiriesListPage.tsx:32-35 | the enquiry is added and the form closes blank |
| Enquiries.SubmitStoresNewEnquiry | ShayonaWindowsIMS/pages/enquiries/EnquiriesListPage.tsx:32-35 | the store gains exactly that enquiry, `New`, under an `ENQ-` id |
| CuttingList.GenerateCuts | ShayonaWindowsIMS/pages/fabrication/CuttingListDetailPage.tsx:29-41 | an item whose profile is missing gives no cuts, any other exactly five |
| CuttingList.CutsPerWindow | ShayonaWindowsIMS/pages/fabrication/CuttingListDetailPage.tsx:34-40 | the five cuts make 12 pieces per window; the bead is `w - 120` and named after the profile |
| CuttingList.AllCutsAppend | ShayonaWindowsIMS/pages/fabrication/CuttingListDetailPage.tsx:43 | the cuts of an order are the cuts of its items in item order |
| CuttingList.AllCutsCount | ShayonaWindowsIMS/pages/fabrication/CuttingListDetailPage.tsx:43 | an order has five cuts per item whose profile is known |
| CuttingList.HardwareName | ShayonaWindowsIMS/pages/fabrication/CuttingListDetailPage.tsx:47-48 | an unknown hardware id is named `Unknown` |
| CuttingList.LineUses | ShayonaWindowsIMS/pages/fabrication/CuttingListDetailPage.tsx:46-49 | an item uses each of its hardware ids once per window |
| CuttingList.QuantityForAbsent | ShayonaWindowsIMS/pages/fabrication/CuttingListDetailPage.tsx:45-58 | a name that is never used has quantity 0 |
| CuttingList.AggregateNames | ShayonaWindowsIMS/pages/fabrication/CuttingListDetailPage.tsx:45-58 | the hardware list has one row per distinct name, in first-appearance order |
| CuttingList.AggregateSpec | ShayonaWindowsIMS/pages/fabrication/CuttingListDetailPage.tsx:45-58 | each row's quantity is the sum over all uses of that name |
| CuttingList.AggregateUses | ShayonaWindowsIMS/pages/fabrication/CuttingListDetailPage.tsx:50-57 | the accumulating loop computes exactly the aggregate |
| CuttingList.HardwareList | ShayonaWindowsIMS/pages/fabrication/CuttingListDetailPage.tsx:45-58 | the hardware list of an order: distinct names, each with its summed quantity |
| CuttingList.GlassList | ShayonaWindowsIMS/pages/fabrication/CuttingListDetailPage.tsx:60-67 | one pane per item, in order, 100 smaller each way, with the item's quantity, named `Unknown Glass` when the glass is missing |
| CuttingList.CuttingSheet | ShayonaWindowsIMS/pages/fabrication/CuttingListDetailPage.tsx:22-67 | an unknown order gives no sheet; a known one gives its cuts, hardware and glass lists |
| PurchaseOrders.OrderTotalUpdate | ShayonaWindowsIMS/pages/purchasing/PurchaseOrdersListPage.tsx:48 | changing one line changes the total by exactly that line's difference |
| PurchaseOrders.BlankLineCostsNothing | ShayonaWindowsIMS/pages/purchasing/PurchaseOrdersListPage.tsx:30-32 | a new blank line leaves the total unchanged |
| PurchaseOrders.ChosenCost | ShayonaWindowsIMS/pages/purchasing/PurchaseOrdersListPage.tsx:36-40 | choosing an item sets the unit cost to its cost, or 0 when it is not found |
| PurchaseOrders.PurchaseOrderForm.constructor | ShayonaWindowsIMS/pages/purchasing/PurchaseOrdersListPage.tsx:15-17 | the form starts closed with no lines |
| PurchaseOrders.PurchaseOrderForm.Open | ShayonaWindowsIMS/pages/purchasing/PurchaseOrdersListPage.tsx:19-24 | opening preselects the first supplier when there is one |
| PurchaseOrders.PurchaseOrderForm.Close | ShayonaWindowsIMS/pages/purchasing/PurchaseOrdersListPage.tsx:25-28 | closing empties the lines |
| PurchaseOrders.PurchaseOrderForm.AddLine | ShayonaWindowsIMS/pages/purchasing/PurchaseOrdersListPage.tsx:30-32 | appends one blank line and keeps the others |
| PurchaseOrders.PurchaseOrderForm.ChangeLine | ShayonaWindowsIMS/pages/purchasing/PurchaseOrdersListPage.tsx:34-45 | only the edited line changes, and only in the edited field: choosing an item also resets its cost, a number field takes `parseFloat` of the text, and NaN text is reported |
| PurchaseOrders.PurchaseOrderForm.Submitted | ShayonaWindowsIMS/pages/purchasing/PurchaseOrdersListPage.tsx:48-56 | the order is `Ordered`, dated today, with the lines and their summed total |
| PurchaseOrders.PurchaseOrderForm.Submit | ShayonaWindowsIMS/pages/purchasing/PurchaseOrdersListPage.tsx:47-59 | the order is added and the form closes empty |
| PurchaseOrders.SubmittedOrderStored | ShayonaWindowsIMS/pages/purchasing/PurchaseOrdersListPage.tsx:47-59 | the stored order is `Ordered`, its total equals the sum of its lines, and stock is untouched |
| InventoryPage.FirstSwatch | ShayonaWindowsIMS/pages/inventory/InventoryListPage.tsx:12-22 | the first keyword of the table that occurs in the colour, or none when none occurs |
| InventoryPage.ColorClass | ShayonaWindowsIMS/pages/inventory/InventoryListPage.tsx:12-22 | the gray swatch is given exactly when there is no colour or it is empty |
| InventoryPage.ColorClassFollowsTable | ShayonaWindowsIMS/pages/inventory/InventoryListPage.tsx:12-22 | the class is the first matching keyword's, else slate; no colour gives gray |
| InventoryPage.ColorClassIgnoresCase | ShayonaWindowsIMS/pages/inventory/InventoryListPage.tsx:14 | colours equal ignoring case get the same class |
| InventoryPage.FilteredInventory | ShayonaWindowsIMS/pages/inventory/InventoryListPage.tsx:35-47 | the filter shows no more items than are stored |
| InventoryPage.FilteredAppend | ShayonaWindowsIMS/pages/inventory/InventoryListPage.tsx:35-47 | filtering a concatenation filters each part, so shown items keep inventory order |
| InventoryPage.FilteredSingle | ShayonaWindowsIMS/pages/inventory/InventoryListPage.tsx:35-47 | one item is shown exactly when it is in the tab and matches the search |
| InventoryPage.FilteredMembership | ShayonaWindowsIMS/pages/inventory/InventoryListPage.tsx:35-47 | an item is listed exactly when it is of the category and the term occurs in its name, SKU or colour, ignoring case |
| InventoryPage.EmptySearchShowsCategory | ShayonaWindowsIMS/pages/inventory/InventoryListPage.tsx:38-39 | an empty term lists the whole category |
| InventoryPage.AvailableColors | ShayonaWindowsIMS/pages/inventory/InventoryListPage.tsx:198-206 | the colours offered are exactly the catalog entries of the chosen description |
| InventoryPage.RefusedSubmitChangesNothing | ShayonaWindowsIMS/pages/inventory/InventoryListPage.tsx:220-227 | a new Profile without a catalog choice, or an empty name or SKU, is refused with the store unchanged |
| InventoryPage.AddedQuantityPositions | ShayonaWindowsIMS/pages/inventory/InventoryListPage.tsx:235-236 | merging a quantity changes only the existing item's quantity |
| InventoryPage.ExistingSkuMerges | ShayonaWindowsIMS/pages/inventory/InventoryListPage.tsx:233-238 | a confirmed new item with a known SKU adds its quantity to that item and adds no item |
| InventoryPage.ExistingSkuDeclined | ShayonaWindowsIMS/pages/inventory/InventoryListPage.tsx:233-238 | a declined merge changes nothing |
| InventoryPage.UpdateTouchesInventory | ShayonaWindowsIMS/pages/inventory/InventoryListPage.tsx:236 | an item update changes only the inventory, the history and the log |
| InventoryPage.NewSkuAddsOneItem | ShayonaWindowsIMS/pages/inventory/InventoryListPage.tsx:240 | a new SKU adds exactly one item under an `INV-` id |
| InventoryPage.EditReplacesItem | ShayonaWindowsIMS/pages/inventory/InventoryListPage.tsx:229-231 | an edit stores the form as the item |
| InventoryPage.ItemModal.constructor | ShayonaWindowsIMS/pages/inventory/InventoryListPage.tsx:178-194 | the form starts from the edited item, or blank for a new one |
| InventoryPage.ItemModal.ChangeText | ShayonaWindowsIMS/pages/inventory/InventoryListPage.tsx:208-212 | an edit overwrites only the named text field |
| InventoryPage.ItemModal.ChangeNumber | ShayonaWindowsIMS/pages/inventory/InventoryListPage.tsx:208-212 | a numeric field takes the parsed number, or 0 when the text does not parse |
| InventoryPage.ItemModal.ChangeCategory | ShayonaWindowsIMS/pages/inventory/InventoryListPage.tsx:208-212 | only the category changes |
| InventoryPage.ItemModal.ChangeUnit | ShayonaWindowsIMS/pages/inventory/InventoryListPage.tsx:208-212 | only the unit changes |
| InventoryPage.ItemModal.SelectDescription | ShayonaWindowsIMS/pages/inventory/InventoryListPage.tsx:186 | choosing a description clears the colour choice |
| InventoryPage.ItemModal.SelectColor | ShayonaWindowsIMS/pages/inventory/InventoryListPage.tsx:214-217 | choosing an entry copies code to SKU, description to name, colour and price to cost |
| InventoryPage.ItemModal.Submit | ShayonaWindowsIMS/pages/inventory/InventoryListPage.tsx:219-245 | the outcome and store effect of a submission; the modal closes unless it was refused |
| Settings.CatalogRow | ShayonaWindowsIMS/pages/settings/SettingsPage.tsx:72-77 | a row is kept exactly when code, description and colour are non-empty and the price parses |
| Settings.CatalogRowsMembership | ShayonaWindowsIMS/pages/settings/SettingsPage.tsx:72-77 | an entry is staged exactly when some row reads as it |
| Settings.ImportStaging.constructor | ShayonaWindowsIMS/pages/settings/SettingsPage.tsx:66 | nothing is staged at first |
| Settings.ImportStaging.Preview | ShayonaWindowsIMS/pages/settings/SettingsPage.tsx:66-91 | unreadable text or no valid row leaves the staging and reports an error; otherwise the valid rows are staged |
| Settings.ImportStaging.Confirm | ShayonaWindowsIMS/pages/settings/SettingsPage.tsx:93-100 | with rows staged, they are imported once and the staging is cleared; with none, nothing happens |
| Settings.Restore | ShayonaWindowsIMS/pages/settings/SettingsPage.tsx:42-64 | invalid JSON changes nothing; valid JSON, once confirmed, replaces the store |
| Settings.RestoreReplacesStore | ShayonaWindowsIMS/contexts/DataContext.tsx:215-219 | a restore keeps every collection of the backup and adds exactly one `Data Restore` entry |
| Settings.ZeroCodeDroppedAsWritten | ShayonaWindowsIMS/pages/settings/SettingsPage.tsx:72-77 | as written, a code cell reading as zero becomes the falsy 0 and the row is dropped |
| Settings.NumericCodesBreakImportAsWritten | ShayonaWindowsIMS/pages/settings/SettingsPage.tsx:72-77 | as written, numeric-looking codes are staged as numbers and confirming the import throws |
| Settings.ExampleRowRead | ShayonaWindowsIMS/pages/settings/SettingsPage.tsx:72-77 | illustration of `Settings.CatalogRow` on one row shape (and the step `Settings.TwoRowsRead` builds on): a row of this shape is read as the entry it spells, whatever its code looks like |
| Settings.NumericCodesImported | ShayonaWindowsIMS/pages/settings/SettingsPage.tsx:72-77 | with codes kept as text, two rows with codes distinct ignoring case are both imported |
| Text.Lines | ShayonaWindowsIMS/services/utils.ts:29 | lines are non-empty and hold no CR or LF |
| Csv.ParsedRecords | ShayonaWindowsIMS/services/utils.ts:23-57 | fewer than two lines is an error; otherwise one record per data line |
| Csv.ImportFromCsv | ShayonaWindowsIMS/services/utils.ts:23-57 | the imperative parser computes exactly the parsed records |
| Csv.Header | ShayonaWindowsIMS/services/utils.ts:34 | one trimmed header cell per comma-separated field |
| Csv.RecordColumns | ShayonaWindowsIMS/services/utils.ts:35-49 | a record has exactly the header's columns, each holding the coerced text of its cell |
| Csv.ExtraAndMissingCells | ShayonaWindowsIMS/services/utils.ts:39 | extra cells are ignored and missing cells read as empty text |
| Csv.QuotesStripped | ShayonaWindowsIMS/services/utils.ts:40-42 | one outer pair of quotes is stripped, and only a pair |
| Csv.Coerce | ShayonaWindowsIMS/services/utils.ts:43-45 | only non-blank text becomes a number, and text kept as text is unchanged |
| Csv.RecordsAt | ShayonaWindowsIMS/services/utils.ts:35-49 | the k-th record is read from the k-th data line |
| Csv.BuildRecord | ShayonaWindowsIMS/services/utils.ts:37-48 | the accumulating loop over the header builds exactly the row's record |
| Csv.BuildRecords | ShayonaWindowsIMS/services/utils.ts:35-49 | the loop over the data lines builds exactly the records |
| Csv.RawRows | ShayonaWindowsIMS/services/utils.ts:23-57 | the cell texts before coercion have the same rows and errors as the records |
| Csv.RawRowsCoerce | ShayonaWindowsIMS/services/utils.ts:43-45 | each record is its raw row with every cell coerced |
| Csv.ExportText | ShayonaWindowsIMS/services/utils.ts:1-8 | no rows export nothing |
| Csv.ExportLayout | ShayonaWindowsIMS/services/utils.ts:5-8 | the export is the first row's keys, then each row's line, each led by CRLF |
| Csv.Escape | ShayonaWindowsIMS/services/utils.ts:4-6 | the written text is never shorter than the string, and a string of plain characters (no quote, backslash or control character) is written as it is |
| Csv.EscapeRoundTrip | ShayonaWindowsIMS/services/utils.ts:4 | a string written by the JSON replacer reads back as itself |
| Csv.EscapeHasNoLineBreak | ShayonaWindowsIMS/services/utils.ts:4 | a written string never contains a line break, so one row stays one line |
| Csv.NullAndMissing | ShayonaWindowsIMS/services/utils.ts:4 | a missing key writes nothing while null writes an empty quoted string |
| ExportModal.Quoted | ShayonaWindowsIMS/components/common/ExportModal.tsx:58 | a field is wrapped in double quotes |
| ExportModal.UndoubleDoubled | ShayonaWindowsIMS/components/common/ExportModal.tsx:58 | undoubling the doubled quotes gives the text back |
| ExportModal.QuotedRoundTrip | ShayonaWindowsIMS/components/common/ExportModal.tsx:58 | a quoted field reads back as its text, following rules 5-7 of section 2 of RFC 4180 |
| ExportModal.CellText | ShayonaWindowsIMS/components/common/ExportModal.tsx:58 | falsy values (a zero quantity, cost or reorder level, a missing colour or size) are written empty |
| ExportModal.QuotedCells | ShayonaWindowsIMS/components/common/ExportModal.tsx:57-59 | one quoted field per header |
| ExportModal.GetCsv | ShayonaWindowsIMS/components/common/ExportModal.tsx:55-61 | the accumulating loop writes the header line and one line per row |
| ExportModal.CsvTextLayout | ShayonaWindowsIMS/components/common/ExportModal.tsx:55-61 | the text is the headers joined by commas and a newline, then the rows' lines |
| ExportModal.OfCategory | ShayonaWindowsIMS/components/common/ExportModal.tsx:82-87 | a section holds exactly the items of its category |
| ExportModal.Emitted | ShayonaWindowsIMS/components/common/ExportModal.tsx:91-104 | a section is written exactly when it is enabled and has items |
| ExportModal.AllSectionsEmitted | ShayonaWindowsIMS/components/common/ExportModal.tsx:82-104 | with everything enabled and every category stocked, all four sections are written in order |
| ExportModal.ExportDialog.constructor | ShayonaWindowsIMS/components/common/ExportModal.tsx:22-29 | all options start on, in combined mode |
| ExportModal.ExportDialog.SetOption | ShayonaWindowsIMS/components/common/ExportModal.tsx:50-53 | only the named option changes |
| ExportModal.ExportDialog.SetMode | ShayonaWindowsIMS/components/common/ExportModal.tsx:29 | only the mode changes |
| ExportModal.ExportDialog.WriteSections | ShayonaWindowsIMS/components/common/ExportModal.tsx:91-104 | the loop marks files exactly when some section is written, and collects the combined parts or the separate files |
| ExportModal.ExportDialog.Generate | ShayonaWindowsIMS/components/common/ExportModal.tsx:63-127 | nothing selected is refused; a PDF report or the combined or zipped CSV is saved with the notice `Export generated successfully!`; no written section saves nothing |
| DispatchPage.ReadyOrders | ShayonaWindowsIMS/pages/dispatch/DispatchListPage.tsx:22 | the orders offered are exactly those `Ready for Dispatch` |
| DispatchPage.CreateDisabledIffNoneReady | ShayonaWindowsIMS/pages/dispatch/DispatchListPage.tsx:46 | Create Dispatch is disabled exactly when no order is ready |
| DispatchPage.DispatchOutcome | ShayonaWindowsIMS/pages/dispatch/DispatchListPage.tsx:37-38 | one `Scheduled` dispatch is added, exactly that order becomes `Delivered`, two entries are logged, stock is untouched |
| DispatchPage.DispatchOrder | ShayonaWindowsIMS/pages/dispatch/DispatchListPage.tsx:37-38 | the two store calls in order |
| DispatchPage.DispatchForm.constructor | ShayonaWindowsIMS/pages/dispatch/DispatchListPage.tsx:15-20 | the form starts closed and empty, dated today |
| DispatchPage.DispatchForm.Open | ShayonaWindowsIMS/pages/dispatch/DispatchListPage.tsx:25 | opening keeps the fields |
| DispatchPage.DispatchForm.Close | ShayonaWindowsIMS/pages/dispatch/DispatchListPage.tsx:26 | closing keeps the fields |
| DispatchPage.DispatchForm.Change | ShayonaWindowsIMS/pages/dispatch/DispatchListPage.tsx:28-30 | an edit overwrites only the named field |
| DispatchPage.DispatchForm.Submitted | ShayonaWindowsIMS/pages/dispatch/DispatchListPage.tsx:37 | the dispatch carries the fields with status `Scheduled` |
| DispatchPage.DispatchForm.Submit | ShayonaWindowsIMS/pages/dispatch/DispatchListPage.tsx:32-40 | no order chosen changes nothing; otherwise the dispatch is made and the form closes |
| InstallationSchedule.ReadyOrders | ShayonaWindowsIMS/pages/installation/InstallationSchedulePage.tsx:21-23 | an order is offered exactly when it is `Delivered` and no installation references it |
| InstallationSchedule.ScheduledOrderNotOffered | ShayonaWindowsIMS/pages/installation/InstallationSchedulePage.tsx:21-23 | once scheduled, an order is no longer offered |
| InstallationSchedule.ScheduleDisabledIffNoneEligible | ShayonaWindowsIMS/pages/installation/InstallationSchedulePage.tsx:46 | the button is disabled exactly when no order is eligible |
| InstallationSchedule.Team | ShayonaWindowsIMS/pages/installation/InstallationSchedulePage.tsx:30 | the team is the input split on commas: joining it back gives the input |
| InstallationSchedule.TeamNotTrimmed | ShayonaWindowsIMS/pages/installation/InstallationSchedulePage.tsx:30 | names are not trimmed: `Ravi, Amit` gives a second name with a leading space |
| InstallationSchedule.ScheduleForm.constructor | ShayonaWindowsIMS/pages/installation/InstallationSchedulePage.tsx:15-19 | the form starts closed and empty, dated today |
| InstallationSchedule.ScheduleForm.Open | ShayonaWindowsIMS/pages/installation/InstallationSchedulePage.tsx:25 | opening keeps the fields |
| InstallationSchedule.ScheduleForm.Close | ShayonaWindowsIMS/pages/installation/InstallationSchedulePage.tsx:26 | closing hides the modal and keeps the fields |
| InstallationSchedule.ScheduleForm.Change | ShayonaWindowsIMS/pages/installation/InstallationSchedulePage.tsx:28-31 | an edit overwrites only the named field, the team being split |
| InstallationSchedule.ScheduleForm.Submitted | ShayonaWindowsIMS/pages/installation/InstallationSchedulePage.tsx:38 | the installation carries the fields with status `Scheduled` and no completion, feedback or photos |
| InstallationSchedule.ScheduleForm.Submit | ShayonaWindowsIMS/pages/installation/InstallationSchedulePage.tsx:33-40 | no order chosen changes nothing; otherwise the installation is added |
| InstallationSchedule.ScheduleOutcome | ShayonaWindowsIMS/pages/installation/InstallationSchedulePage.tsx:33-40 | the installation is appended, orders are untouched, and the order is no longer offered |
| InstallationDetail.StatusOptionsAreAllStatuses | ShayonaWindowsIMS/pages/installation/InstallationDetailPage.tsx:65-70 | the options are the four installation statuses, each once |
| InstallationDetail.StatusOnly | ShayonaWindowsIMS/pages/installation/InstallationDetailPage.tsx:26 | the update payload carries only the status |
| InstallationDetail.StatusUpdateKeepsInstallation | ShayonaWindowsIMS/pages/installation/InstallationDetailPage.tsx:26 | the installation changes in its status only |
| InstallationDetail.CompletionInstallsOrder | ShayonaWindowsIMS/pages/installation/InstallationDetailPage.tsx:25-30 | completing sets exactly that order to `Installed` and logs two entries |
| InstallationDetail.OtherStatusKeepsOrders | ShayonaWindowsIMS/pages/installation/InstallationDetailPage.tsx:27 | any other status leaves orders, log and stock unchanged |
| InstallationDetail.DetailPage.constructor | ShayonaWindowsIMS/pages/installation/InstallationDetailPage.tsx:18-19 | the page starts with the installation's status and photos |
| InstallationDetail.DetailPage.ChooseStatus | ShayonaWindowsIMS/pages/installation/InstallationDetailPage.tsx:66 | only the chosen status changes |
| InstallationDetail.DetailPage.UploadPhoto | ShayonaWindowsIMS/pages/installation/InstallationDetailPage.tsx:32-41 | a photo is appended to the page's list only, never stored |
| InstallationDetail.DetailPage.UpdateStatus | ShayonaWindowsIMS/pages/installation/InstallationDetailPage.tsx:25-30 | the two store calls; completing an installation that is not found fails |
| Warranty.ClaimableOrders | ShayonaWindowsIMS/pages/warranty/WarrantyListPage.tsx:64 | the orders offered are exactly the `Installed` ones |
| Warranty.ClaimForm.constructor | ShayonaWindowsIMS/pages/warranty/WarrantyListPage.tsx:15-19 | the form starts closed and empty, dated today |
| Warranty.ClaimForm.Open | ShayonaWindowsIMS/pages/warranty/WarrantyListPage.tsx:21 | opening keeps the fields |
| Warranty.ClaimForm.Close | ShayonaWindowsIMS/pages/warranty/WarrantyListPage.tsx:22 | closing hides the modal and keeps the fields |
| Warranty.ClaimForm.Change | ShayonaWindowsIMS/pages/warranty/WarrantyListPage.tsx:24-26 | an edit overwrites only the named field |
| Warranty.ClaimForm.Submitted | ShayonaWindowsIMS/pages/warranty/WarrantyListPage.tsx:33 | the claim is `Open` with no visits and no resolution |
| Warranty.ClaimForm.Submit | ShayonaWindowsIMS/pages/warranty/WarrantyListPage.tsx:28-35 | no order chosen changes nothing; otherwise the claim is added |
| Warranty.ClaimOutcome | ShayonaWindowsIMS/pages/warranty/WarrantyListPage.tsx:28-35 | the claim is appended `Open` with no visits, one entry is logged, orders are untouched |
| Dashboard.TotalQuantity | ShayonaWindowsIMS/pages/dashboard/DashboardPage.tsx:24 | the "Total Stock Quantity" sum: when no quantity is negative, it is non-negative and at least the quantity of every item |
| Dashboard.TotalQuantityAppend | ShayonaWindowsIMS/pages/dashboard/DashboardPage.tsx:24 | the total over two lists is the sum of their totals |
| Dashboard.CatalogCount | ShayonaWindowsIMS/pages/dashboard/DashboardPage.tsx:25 | at most one per item, and zero only for no items |
| Dashboard.CatalogCountOfDistinctSkus | ShayonaWindowsIMS/pages/dashboard/DashboardPage.tsx:25 | with distinct SKUs the count is the number of items |
| Dashboard.ValueChangeMeaning | ShayonaWindowsIMS/pages/dashboard/DashboardPage.tsx:27-36 | without a positive previous value the indicator is a green `+0%`; with one it is red exactly when the value fell, and signed `+` otherwise |
| Dashboard.PctSign | ShayonaWindowsIMS/pages/dashboard/DashboardPage.tsx:30-32 | the change is negative exactly when the value fell |
| Dashboard.LowStockCount | ShayonaWindowsIMS/pages/dashboard/DashboardPage.tsx:38 | zero exactly when every item is above its reorder level |
| Dashboard.MostValuableBounds | ShayonaWindowsIMS/pages/dashboard/DashboardPage.tsx:46-49 | the value shown is at least every item's value, and a zero value shows `None` |
| Dashboard.MostValuableFirst | ShayonaWindowsIMS/pages/dashboard/DashboardPage.tsx:46-49 | a positive result is an item whose value exceeds that of every item before it |
| Dashboard.MostValuableIsFirstLargest | ShayonaWindowsIMS/pages/dashboard/DashboardPage.tsx:46-49 | `None` when no value is positive; otherwise the first item with the largest value |
| Dashboard.HasColorMeaning | ShayonaWindowsIMS/pages/dashboard/DashboardPage.tsx:40-43 | a colour counts exactly when some coloured profile has it |
| Dashboard.ColorDomain | ShayonaWindowsIMS/pages/dashboard/DashboardPage.tsx:40-43 | the colour map has exactly the colours of coloured profiles |
| Dashboard.ColorSums | ShayonaWindowsIMS/pages/dashboard/DashboardPage.tsx:40-43 | each colour maps to the summed quantity of its profiles |
| Dashboard.TopIsLargestLatest | ShayonaWindowsIMS/pages/dashboard/DashboardPage.tsx:44 | the reduce picks a largest key, the later one on ties |
| Dashboard.TopColorOf | ShayonaWindowsIMS/pages/dashboard/DashboardPage.tsx:44 | no coloured profile gives `None` |
| Dashboard.TopColorIsLargest | ShayonaWindowsIMS/pages/dashboard/DashboardPage.tsx:40-44 | the top colour is a profile colour with the largest summed quantity |
| Dashboard.TopColor | ShayonaWindowsIMS/pages/dashboard/DashboardPage.tsx:40-44 | the dictionary loop computes exactly the top colour |
| Dashboard.ActiveOrders | ShayonaWindowsIMS/pages/dashboard/DashboardPage.tsx:61 | zero exactly when every order is `Delivered` or `Installed` |
| Dashboard.PendingQuotes | ShayonaWindowsIMS/pages/dashboard/DashboardPage.tsx:62 | zero exactly when no quotation is `Sent` |
| TopItems.Label | ShayonaWindowsIMS/components/dashboard/TopItemsChart.tsx:19 | a name over 20 characters becomes its first 18 plus `...`; shorter names are kept |
| TopItems.BarOf | ShayonaWindowsIMS/components/dashboard/TopItemsChart.tsx:20 | a bar's value is quantity times cost |
| TopItems.SortDesc | ShayonaWindowsIMS/components/dashboard/TopItemsChart.tsx:22 | sorting keeps the bars, as a permutation |
| TopItems.SortDescSorted | ShayonaWindowsIMS/components/dashboard/TopItemsChart.tsx:22 | the sorted bars are in descending value |
| TopItems.Reversed | ShayonaWindowsIMS/components/dashboard/TopItemsChart.tsx:24 | reversal puts the i-th from the end at position i |
| TopItems.ReversedAscending | ShayonaWindowsIMS/components/dashboard/TopItemsChart.tsx:24 | reversing a descending list gives an ascending one |
| TopItems.TopItemsShape | ShayonaWindowsIMS/components/dashboard/TopItemsChart.tsx:16-25 | at most five bars, in ascending value |
| TopItems.TopItemsAreLargest | ShayonaWindowsIMS/components/dashboard/TopItemsChart.tsx:16-25 | the bars shown together with the rest make up all bars, and none left out is worth more than one shown |
| CategoryChart.TallyKeys | ShayonaWindowsIMS/components/dashboard/CategoryDistributionChart.tsx:23-28 | the categories tallied are the distinct categories in first-appearance order |
| CategoryChart.TallyValues | ShayonaWindowsIMS/components/dashboard/CategoryDistributionChart.tsx:25-27 | each tally is that category's stock value |
| CategoryChart.TallySum | ShayonaWindowsIMS/components/dashboard/CategoryDistributionChart.tsx:23-28 | the tallies sum to the stock value |
| CategoryChart.ChartMeaning | ShayonaWindowsIMS/components/dashboard/CategoryDistributionChart.tsx:23-30 | one slice per category present, in first-appearance order, each worth its category's value |
| CategoryChart.ChartSum | ShayonaWindowsIMS/components/dashboard/CategoryDistributionChart.tsx:23-30 | the slices sum to the total stock value |
| CategoryChart.ChartData | ShayonaWindowsIMS/components/dashboard/CategoryDistributionChart.tsx:23-30 | the dictionary loop computes exactly the chart |
| OrderTimeline.Stages | ShayonaWindowsIMS/components/orders/OrderTimeline.tsx:15-17 | one stage per status, named after it |
| OrderTimeline.StagesMeaning | ShayonaWindowsIMS/components/orders/OrderTimeline.tsx:11-40 | a stage is done exactly when before the current one; exactly one is active when the status is listed, none otherwise; every stage but the last has a connector, green exactly when done |
| OrderTimeline.TimelineOfOrder | ShayonaWindowsIMS/components/orders/OrderTimeline.tsx:11-17 | for an order status the stages before it are done, it is active, the rest upcoming |
| OrderTimeline.BoardStageShowsNothing | ShayonaWindowsIMS/components/orders/OrderTimeline.tsx:11 | a production stage such as `Welding` is not a listed status, so every stage is upcoming |
| SalesOrders.ProgressIn | ShayonaWindowsIMS/pages/orders/SalesOrdersListPage.tsx:21-22 | progress is between 0 and 100; an unknown status gives 0 and the last status 100 |
| SalesOrders.PendingProgress | ShayonaWindowsIMS/pages/orders/SalesOrdersListPage.tsx:22 | `Pending` shows 12.5 |
| SalesOrders.InstalledProgress | ShayonaWindowsIMS/pages/orders/SalesOrdersListPage.tsx:22 | `Installed` shows 100 |
| SalesOrders.ProgressIncreasing | ShayonaWindowsIMS/pages/orders/SalesOrdersListPage.tsx:21-22 | progress strictly increases along the pipeline |
| SalesOrders.CustomerName | ShayonaWindowsIMS/pages/orders/SalesOrdersListPage.tsx:20-27 | `N/A` exactly when no customer has the order's customer id or the first such customer's name is empty (or is itself `N/A`); otherwise a matching customer's name |
| SalesOrders.Rows | ShayonaWindowsIMS/pages/orders/SalesOrdersListPage.tsx:19-27 | one row per order, with its progress |
| GlobalSearch.Search | ShayonaWindowsIMS/components/common/GlobalSearch.tsx:22-40 | an empty term finds nothing, and there is at most one hit per record |
| GlobalSearch.SearchGroups | ShayonaWindowsIMS/components/common/GlobalSearch.tsx:36 | order hits come first, then customers, then items |
| GlobalSearch.OrderHits | ShayonaWindowsIMS/components/common/GlobalSearch.tsx:24-26 | an order whose id contains the term, ignoring case, is found with a link to `/orders/<id>` |
| GlobalSearch.CustomerHits | ShayonaWindowsIMS/components/common/GlobalSearch.tsx:28-30 | a customer whose name contains the term is found with a link to `/customers` |
| GlobalSearch.ItemHits | ShayonaWindowsIMS/components/common/GlobalSearch.tsx:32-34 | an item whose name or SKU contains the term is found with a link to `/inventory` |
| Notifications.Without | ShayonaWindowsIMS/contexts/NotificationContext.tsx:34-36 | removal keeps exactly the notifications with another id |
| Notifications.WithoutAppend | ShayonaWindowsIMS/contexts/NotificationContext.tsx:34-36 | removing from a concatenation removes from each part, so the rest keep their order |
| Notifications.WithoutSingle | ShayonaWindowsIMS/contexts/NotificationContext.tsx:34-36 | one notification is kept exactly when its id differs |
| Notifications.AfterCheck | ShayonaWindowsIMS/contexts/NotificationContext.tsx:38-53 | with no low stock, or an alert already shown, nothing changes; otherwise one warning with the count is put in front |
| Notifications.AlertWhenLow | ShayonaWindowsIMS/contexts/NotificationContext.tsx:39-50 | after a check with low stock an alert is present |
| Notifications.AlertRaisedOnce | ShayonaWindowsIMS/contexts/NotificationContext.tsx:43-44 | a second check adds nothing |
| Notifications.NotificationCenter.constructor | ShayonaWindowsIMS/contexts/NotificationContext.tsx:21 | there are no notifications at first |
| Notifications.NotificationCenter.Add | ShayonaWindowsIMS/contexts/NotificationContext.tsx:24-32 | the new notification goes in front |
| Notifications.NotificationCenter.Remove | ShayonaWindowsIMS/contexts/NotificationContext.tsx:34-36 | every notification with the id is removed |
| Notifications.NotificationCenter.CheckLowStock | ShayonaWindowsIMS/contexts/NotificationContext.tsx:38-53 | the effect applies the check to the list |
| Toasts.Dismissed | ShayonaWindowsIMS/contexts/ToastContext.tsx:24-26 | removal keeps exactly the toasts with another id |
| Toasts.DismissedAppend | ShayonaWindowsIMS/contexts/ToastContext.tsx:24-26 | dismissing from a concatenation dismisses from each part, so the rest keep their order |
| Toasts.DismissedSingle | ShayonaWindowsIMS/contexts/ToastContext.tsx:24-26 | one toast is kept exactly when its id differs |
| Toasts.DismissJustShown | ShayonaWindowsIMS/contexts/ToastContext.tsx:15-26 | removing by the id of a toast just shown gives what removing by that id gave before it was shown |
| Toasts.SameMillisecond | ShayonaWindowsIMS/contexts/ToastContext.tsx:17 | two toasts shown in the same millisecond are removed together |
| Toasts.DismissUnknown | ShayonaWindowsIMS/contexts/ToastContext.tsx:25 | removing an unknown id changes nothing |
| Toasts.ToastQueue.constructor | ShayonaWindowsIMS/contexts/ToastContext.tsx:13 | there are no toasts at first |
| Toasts.ToastQueue.Show | ShayonaWindowsIMS/contexts/ToastContext.tsx:15-22 | the toast is appended and existing ones are unchanged |
| Toasts.ToastQueue.Remove | ShayonaWindowsIMS/contexts/ToastContext.tsx:24-26 | every toast with the id is removed |
| Constants.OrderStatusesArePipeline | ShayonaWindowsIMS/constants.ts:6-15 | eight distinct statuses, every order status, from `Pending` to `Installed` |
| Constants.LabelsFoundInPlace | ShayonaWindowsIMS/constants.ts:6-15 | each status label is found at its own position |
| Constants.IndexOf | ShayonaWindowsIMS/constants.ts:6-15 | the first position of a value, or -1 exactly when it is absent |
| Constants.StatusListsComplete | ShayonaWindowsIMS/constants.ts:17-19 | four quotation statuses and five purchase-order statuses, each listed |
| Constants.StagesOutsidePipeline | ShayonaWindowsIMS/constants.ts:21 | the production stages are not order statuses |
| Constants.CategoriesAreLabels | ShayonaWindowsIMS/constants.ts:23 | the category list is the four inventory categories |
| Constants.VisibleFor | ShayonaWindowsIMS/constants.ts:27-42 | an entry is shown exactly when its roles include the user's |
| Constants.Visible | ShayonaWindowsIMS/constants.ts:27-42 | nobody signed in sees nothing |
| Constants.SettingsAdminOnly | ShayonaWindowsIMS/constants.ts:41 | Settings is shown exactly to Admin |
| Constants.NavRolesAreUserRoles | ShayonaWindowsIMS/constants.ts:4 | every role in the navigation table is a user role |
| Text.Lower | ShayonaWindowsIMS/services/api.ts:210 | lower-casing keeps the length and folds each character |
| Text.LowerIdempotent | ShayonaWindowsIMS/services/api.ts:210 | lower-casing twice is lower-casing once |
| Text.ContainsIff | ShayonaWindowsIMS/components/common/GlobalSearch.tsx:24-34 | a string contains another exactly when it occurs at some position |
| Text.Trim | ShayonaWindowsIMS/services/utils.ts:34 | trimming removes leading and trailing white space (every ECMAScript white-space and line-terminator character) only |
| Text.SplitJoin | ShayonaWindowsIMS/services/utils.ts:37 | splitting a joined list of separator-free parts gives the parts |
| Text.JoinSplit | ShayonaWindowsIMS/pages/installation/InstallationSchedulePage.tsx:30 | joining the split parts gives the text back |
| Text.LinesKeepText | ShayonaWindowsIMS/services/utils.ts:29 | the lines hold every character of the text except the line breaks |
| Text.NatTextParses | ShayonaWindowsIMS/pages/settings/SettingsPage.tsx:82 | a written count reads back as the same number |
| Text.ParseNumber | ShayonaWindowsIMS/services/utils.ts:43-45 | blank text reads as 0 |
| Text.ParseFloat | ShayonaWindowsIMS/pages/purchasing/PurchaseOrdersListPage.tsx:42 | blank text reads as `NaN` (`None`) |
| Text.ParseFloatOfDigits | ShayonaWindowsIMS/services/utils.ts:43-45 | digit-only text parses to its decimal value |
| Text.ParseFloatReadsPrefix | ShayonaWindowsIMS/pages/purchasing/PurchaseOrdersListPage.tsx:42 | `parseFloat` reads `12abc` as 12 and an empty field as NaN |
| ResetAliasing.ResetKeepsWritesAsWritten | ShayonaWindowsIMS/contexts/DataContext.tsx:220-227 | as written, after a fresh start an added enquiry survives a reset, and two resets log `System Reset` twice |
| ResetAliasing.StoreModule.Reset | ShayonaWindowsIMS/services/api.ts:41-44 | as written, reset makes the store the seed object itself and logs into it |
| ResetAliasing.StoreModule.AddEnquiry | ShayonaWindowsIMS/services/api.ts:48-53 | as written, an add pushes into the array the store shares |

## Left out

- Browser I/O is not modelled: `localStorage`, `FileReader`, `JSON.parse` and `JSON.stringify` of the whole store, `saveAs`, JSZip, canvas capture and download links. Persistence is the store's value after the call; a file is its text; a parsed backup is an `Option<AppData>` parameter.
- The clock and `Math.random` are inputs (`Env`). Ids are assumed fresh; nothing proves two draws differ.
- `window.confirm` and `alert` are boolean inputs or returned notices.
- React rendering, routing, theme, login, the subscriber list and the mirror of store state in the context are left out. The Sidebar's filter is `Constants.Visible`. The notification effect is `NotificationCenter.CheckLowStock`, called explicitly.
- `async`/`await` is treated as atomic: each store call completes before the next begins.
- Number formatting (`toFixed`, `toLocaleString`, `${n}` for reals) is an abstract `show`/`fixed1` parameter. Nothing is claimed about IEEE rounding; money and sizes are `real`.
- `parseFloat` and `Number` read decimal literals: optional sign, digits with an optional fraction (a leading `.` included), and an optional exponent. `Infinity`, and `Number`'s hexadecimal, octal and binary forms, are not modelled; values are exact reals, and NaN is `None`.
- Text.Lower: folds the ASCII letters only, whereas `toLowerCase` (and `toUpperCase` for `Text.Upper`) folds every Unicode letter, so the case-insensitive comparisons built on it (the catalog merge, the SKU merge, the customer match, global search, the inventory filter and colour classes) treat non-ASCII letters of different case as different.
- PurchaseOrders.PurchaseOrderForm.ChangeLine: text that `parseFloat` reads as NaN (a cleared field) is reported and leaves the line as it was, whereas the source stores NaN and the order total becomes NaN; reals have no NaN.
- Settings.CatalogRow: reads the corrected staging, in which every cell is text: a code, description or colour cell reading as zero (`0`, `0.0`, `-0`) is kept, whereas as written it becomes the falsy number 0 and the row is dropped (`Settings.ZeroCodeDroppedAsWritten`).
- Settings.ImportStaging.Preview: stages through `Settings.CatalogRow`, so it keeps the zero-valued rows that the as-written filter drops.
- `Object.keys` order is the insertion order of the record, which is what the source relies on for CSV headers and the colour and category maps.
- The PDF report (`services/pdfGenerator.ts`) and the Chart.js drawing are library calls that cannot be seen; only the file name saved for the PDF is modelled.
- Display-only pages are not part of this model: sales-order, purchase-order, dispatch and warranty detail pages, customers, suppliers, reports and the cutting-list index. Their single store calls are the `Api` operations above.
- The production board (`pages/production/ProductionDashboardPage.tsx:14-17`) is not modelled. Dropping an order on a column stores the column name as the order's status through an unchecked cast. `Cutting`, `Assembly` and `Glazing` are pipeline statuses, but `Welding`, `Cleaning` and `Hardware Fixing` are not. A stored order status here is one of the eight pipeline statuses, so orders carrying those three, and how `updateSalesOrder`, the dashboard's active-order count, the sales-order rows and the dispatch list treat them, are not represented. `OrderTimeline.BoardStageShowsNothing` covers only how the timeline shows such a status.
- TopItems.Label: measures and cuts names in Unicode characters, whereas `length` and `substring` count UTF-16 code units. A name with a character outside the Basic Multilingual Plane (an emoji) is cut earlier in the source, which may also split a surrogate pair that a Dafny string cannot hold.
- Dispatch, installation and warranty forms are not reset when closed, as in the source; only the enquiry and purchase-order forms reset.
- Dashboard.TopColorIsLargest: requires that no profile colour is literally `None`, because that name doubles as the empty result.
- TopItems.TopItemsAreLargest: states which bars are shown but not the order of bars with equal value, because the sort's tie order is that of the browser's sort.
- ResetAliasing.ResetKeepsWritesAsWritten: the as-written store tracks only enquiry ids and log actions, the two collections the finding needs.

## Findings

| source | as written | input that shows it | evidently intended | confidence | as-written member | corrected member |
|---|---|---|---|---|---|---|
| ShayonaWindowsIMS/pages/settings/SettingsPage.tsx:72-77 | `importFromCSV` turns numeric-looking cells into numbers, and the catalog row keeps `code` as that number; `addToCatalog` then calls `toLowerCase` on it (services/api.ts:210) | a CSV `code,desc,color,price` with rows `101,Casement,White,5` and `102,Casement,White,5`, previewed and confirmed on an empty catalog | both entries are imported with codes `101` and `102` as text | not executed | Settings.NumericCodesBreakImportAsWritten | Settings.NumericCodesImported |
| ShayonaWindowsIMS/contexts/DataContext.tsx:220-227 | reset calls `setInitialData(mockData)`, so the store becomes the seed object itself (services/api.ts:8 does the same on a fresh start); later pushes write into the seed | start with empty storage, add an enquiry, reset; then reset again | a reset restores the pristine seed with one `System Reset` entry | not executed | ResetAliasing.ResetKeepsWritesAsWritten | DataContext.ResetOutcome |
