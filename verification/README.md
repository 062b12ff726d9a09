# Verified model of the purchasing and stock kernel

This project models the part of the backend in which one call changes several tables at once: purchase requisitions,
their conversion into purchase orders, receipts against orders and their reversal, stock counts, the append-only stock
ledger with its cached moving-average balances, document numbers, and the two protocols by which concurrent transactions
share requisition lines and balance rows.

Numbers are scaled integers: quantities, unit prices and average costs in units of 10^-4, amounts in cents. Rounding is
half-up, away from zero on ties. An auto-increment id is the row's position in its table.

## How it is organised

- `Sums`, `Sorting`, `Money`, `Tables`: finite sums, stable sorting, decimal arithmetic, the rows and the session.
- `Inventory`, `Requisitions`, `Orders`, `Receipts`, `Counts`: the services. Each exists twice: as a method that works
  on a `Session` step by step, with the loops of the original and a rollback on every failure, and as the function of
  the old tables that the method is proved to compute (`Settles`: the specified new tables and reply, or the specified
  error and unchanged tables).
- `RequisitionRules`, `OrderRules`, `ReceiptRules`, `LedgerRules`, `CountRules`: the invariants, one module for each
  part of the tables, and what each service keeps of them.
- `Acceptance`, `RequisitionCalls`, `OrderCalls`, `ReceiptCalls`, `CountCalls`: for each of the 17 calls, exactly when
  it succeeds, exactly what it leaves in every table, and what each error means, as conditions on the payload, the
  caller and the tables.
- `Validity`, `Runs`: all invariants together (`Valid`), every service keeps them, hence every run of calls by any
  users against any master data does.
- `ChainLaws`, `StockLaws`, `CountLaws`: what follows in every reachable state: exact success conditions, what one call
  undoes, conservation, history independence.
- `Completion`: no document gets stuck; from every reachable state a purchase can be carried to its last delivery.
- `Residues`, `EmptyStock`: runs that end with value or stock that a write-off or a reversal cannot clear.
- `LockProtocol`, `ConversionProtocol`, `Numbering`: interleavings of any number of transactions. `LockedPostings`,
  `LockedServices`, `LockedCounts`: receipts, reversals and count approvals as transactions of the lock protocol;
  `LockedRuns`: any schedule of them is the service calls in commit order. `ConversionRuns`, `ConversionSchedules`: the
  same for create_po and cancel_po in the conversion protocol.

`Valid(db)` says, of every state a run can reach:

- requisitions: every line is priced and 0 <= converted <= requested; every total is the sum of its rounded lines;
  APPROVED means some line is not fully converted, CONVERTED that all are, any other status that nothing is converted;
  the approval history is REJECT* then at most one APPROVE, with one record for each decided submission, and
  version == 1 + the number of successful update, submit, cancel, approve, reject and revise calls;
- orders: converted == the sum of the sources of live orders, ordered == the sum of the line's sources, source pairs are
  unique, totals are exact;
- receipts: received == the sum of the lines of posted receipts <= ordered; CONFIRMED, PARTIALLY_RECEIVED and RECEIVED
  are functions of the line quantities; a draft or cancelled order has received nothing;
- stock: each balance equals the sum of its ledger rows in quantity and money, both non-negative, its average is the
  rounded quotient; every balance_after is the running sum, never negative;
- ledger: exactly one row for each receipt line, one reversal row for each line of a reversed receipt, linked to its
  original, one adjustment row for each differing line of a posted count, and nothing else;
- counts: every line's snapshot is the ledger prefix up to its watermark, its difference and amount follow from it, and
  a posted count was approved by someone else than the counter or carries the override mark.

Where the code and its documentation disagree, the model follows the code:

- docs/database-design.md:599 and the comment at backend/app/services/inventory_service.py:224 say that the total is
  forced to 0 when a balance becomes empty. The code (lines 210-226) only zeroes the average. Two calls can empty a
  key. For a count to 0, `Money.WriteOffOutcome` and `Residues.WriteOffDecided` give the exact condition under which
  the total becomes 0, and `Residues.LeftoverWriteOff` and `Residues.RefusedWriteOff` are runs from empty tables after
  which it does not, or the write-off is refused. For the reversal of a receipt, `StockLaws.EmptiedIsWorthlessIff`
  gives it: the key was worth exactly what the receipt had brought in. `EmptyStock.ReversalLeavesFive` is a run from
  empty tables after which reversing a receipt leaves quantity 0 worth 5.00, although writing the same stock off would
  have cleared it.
- README.md:242 and backend/app/models/support.py:32 describe numbering as a short transaction of its own, with gaps.
  The code (backend/app/services/numbering_service.py:20-26) advances the counter inside the business transaction, so
  committed numbers have no gaps (`Numbering.CommittedNumbersHaveNoGaps`).

## Model

| member | source | states |
|---|---|---|
| `Money.HalfUp` | backend/app/utils/money.py:33-35 | the result is the nearest integer to the quotient, and a tie goes away from zero |
| `Money.HalfUpUnique` | backend/app/utils/money.py:33-35 | those bounds leave exactly one result |
| `Money.LineAmountRounds` | backend/app/utils/money.py:48-50 | an amount is the product to the nearest cent, ties away from zero |
| `Money.UnitCostRounds` | backend/app/utils/money.py:38-45 | an average cost is the quotient to the nearest 10^-4, ties away from zero |
| `Money.SumAmountsExact` | backend/app/utils/money.py:53-55 | a total is the exact sum of its rounded amounts |
| `Money.SplitValueBound` | backend/app/utils/money.py:48-50 | delivering a quantity in k parts books at most (k+1) half cents more or less than in one, and nothing for k = 1 |
| `Money.WriteOffBound` | backend/app/services/stock_reconciliation_service.py:210-215 | valuing a whole stock at its rounded average misses its value by at most quantity * 0.00005 + 0.005, and by nothing below 100 units |
| `Money.WriteOffOutcome` | backend/app/services/inventory_service.py:206-226 | the write-off clears the value, or is refused as negative, exactly by how far the rounded average overshoots |
| `Inventory.SortKeys` | backend/app/services/inventory_service.py:94-96 | strictly ascending, with exactly the given keys |
| `Inventory.SortKeysCanonical` | backend/app/services/inventory_service.py:94-96 | the order depends only on which keys are given, not on their order or repetition |
| `Inventory.LockBalances` | backend/app/services/inventory_service.py:135-154 | all keys in canonical order, missing balances created empty, existing ones untouched |
| `Inventory.ApplyInbound` | backend/app/services/inventory_service.py:164-191 | succeeds exactly when neither quantity nor value ends below zero; both then move by exactly what was given, the rounding of stored cents vanishing, and the average is their quotient |
| `Inventory.ApplyOutbound` | backend/app/services/inventory_service.py:194-227 | succeeds exactly when quantity and value are there; both leave by exactly what was given, whatever the average is, and the three refusals are told apart |
| `Inventory.WriteTransaction` | backend/app/services/inventory_service.py:240-305 | a row is appended exactly when its signs agree with its type |
| `Inventory.LastRow` | backend/app/services/stock_reconciliation_service.py:159-185 | the id of the key's last row, 0 when it has none |
| `Inventory.PostInBatches` | backend/app/services/purchase_receipt_service.py:353-366 | one aggregated apply per key gives the same balances as applying the rows batch by batch or one by one |
| `Inventory.PostKeepsStock` | backend/app/services/inventory_service.py:157-227 | posting rows that run on and stay covered keeps balance == ledger sum in quantity and money, the average, and every balance_after |
| `Inventory.QuietSince` | backend/app/services/stock_reconciliation_service.py:604-626 | with no row on a key after the watermark, the ledger still sums to the prefix up to it |
| `Requisitions.Recompute` | backend/app/services/purchase_requisition_service.py:205-222 | every listed line gets its rounded amount and the header their sum, or the first invalid line is refused |
| `Requisitions.SyncItems` | backend/app/services/purchase_requisition_service.py:225-259 | the loop computes the specified edit, whose effect `RequisitionCalls.EditedIs` states: named lines are updated, others appended, unnamed ones removed, the first error winning |
| `Requisitions.EditedFacts` | backend/app/services/purchase_requisition_service.py:225-259 | an edit touches no other requisition's lines, keeps the conversions of kept lines, starts new lines at 0 and leaves an exact total |
| `Requisitions.CreatePr` | backend/app/services/purchase_requisition_service.py:265-331 | the session call computes the specified tables and reply, which `RequisitionCalls.CreatedPrIs` states; nothing changed on error |
| `Requisitions.UpdatePr` | backend/app/services/purchase_requisition_service.py:437-510 | the session call computes the specified tables and reply, which `RequisitionCalls.UpdatedPrIs` states; nothing changed on error |
| `Requisitions.SubmitPr` | backend/app/services/purchase_requisition_service.py:516-580 | the session call computes the specified tables and reply, which `RequisitionCalls.SubmittedPrIs` states |
| `Requisitions.CancelPr` | backend/app/services/purchase_requisition_service.py:586-662 | succeeds exactly on a draft, or an approved requisition no live order draws on; the status and version move and no other row of any table but the audit |
| `Requisitions.ApprovePr` | backend/app/services/purchase_requisition_service.py:701-784 | the session call computes the specified tables and reply, which `RequisitionCalls.ApprovedPrIs` states |
| `Requisitions.RejectPr` | backend/app/services/purchase_requisition_service.py:787-853 | succeeds exactly on a pending requisition at the given version for who may decide; adds one REJECT record with the override mark and changes nothing else but status, version and audit |
| `Requisitions.RevisePr` | backend/app/services/purchase_requisition_service.py:856-913 | succeeds exactly on a rejected requisition at the given version for who may manage it; only status, version and audit change |
| `RequisitionRules.RecomputeIsStable` | backend/app/services/purchase_requisition_service.py:205-222 | recomputing stored lines, as submit and approve do, changes neither a line nor the total |
| `RequisitionRules.EditKeepsRules` | backend/app/services/purchase_requisition_service.py:225-331 | creating or editing a draft keeps every rule on lines, totals, statuses and trails |
| `RequisitionRules.TurnKeepsTrails` | backend/app/services/purchase_requisition_service.py:87-92 | every workflow call keeps REJECT* APPROVE?, one record per decided submission, and the version count |
| `RequisitionRules.TurnKeepsRules` | backend/app/services/purchase_requisition_service.py:516-913 | submit, approve, reject, revise and cancel keep every rule on requisitions |
| `RequisitionCalls.CreatedPrIs` | backend/app/services/purchase_requisition_service.py:265-331 | create_pr succeeds exactly for a user of an active department who asks for positive quantities of active materials; it adds a draft with one line for each request, in payload order, priced and totalled by the server |
| `RequisitionCalls.EditedIs` | backend/app/services/purchase_requisition_service.py:205-259 | replacing lines succeeds exactly when every request names an own line and an active material and every line left is positive; each named line becomes what its last request asks for and keeps its conversion, the others go, new ones follow in payload order; the first request not in order decides the error |
| `RequisitionCalls.UpdatedPrIs` | backend/app/services/purchase_requisition_service.py:437-510 | update_pr does that exactly on a draft at the given version, for its applicant or an administrator, and changes no other row; every refusal is told apart |
| `RequisitionCalls.SubmittedPrIs` | backend/app/services/purchase_requisition_service.py:516-580 | in every reachable state submit_pr succeeds exactly on a draft with lines of active materials, for its applicant or an administrator, and moves only status and version; every refusal is told apart |
| `RequisitionCalls.ApprovedPrIs` | backend/app/services/purchase_requisition_service.py:701-784 | in every reachable state approve_pr succeeds exactly on a pending requisition at the given version with lines of active materials, for an active manager of its active department or an active administrator; it adds one APPROVE record under the approver's id with the override mark and moves only status and version |
| `RequisitionCalls.RejectedPrIs` | backend/app/services/purchase_requisition_service.py:787-853 | the same for reject_pr, which does not look at the lines |
| `RequisitionCalls.RevisedPrIs` | backend/app/services/purchase_requisition_service.py:856-913 | revise_pr takes exactly a rejected requisition at the given version back, for its applicant or an administrator |
| `RequisitionCalls.CancelledPrIs` | backend/app/services/purchase_requisition_service.py:586-662 | in every reachable state cancel_pr ends exactly a draft, or an approved requisition of which nothing is converted, for its applicant or an administrator |
| `Orders.ConvertLine` | backend/app/services/purchase_order_service.py:379-405 | one compare-and-set per source row in order, its source row added, the first exceeded line refused |
| `Orders.FlipConverted` | backend/app/services/purchase_order_service.py:235-259 | exactly the referenced approved requisitions that are now fully converted turn CONVERTED |
| `Orders.FlipBack` | backend/app/services/purchase_order_service.py:262-284 | exactly the referenced converted requisitions that are no longer full turn APPROVED |
| `Orders.CreatePo` | backend/app/services/purchase_order_service.py:290-426 | the session call computes the specified tables and reply, with a complete rollback when any conversion fails; `OrderCalls.CreatedPoLeaves` and `CreatedPoRefused` state them |
| `Orders.ConfirmPo` | backend/app/services/purchase_order_service.py:508-573 | the session call with its price loop computes the specified tables and reply, which `OrderCalls.ConfirmedPoIs` states |
| `Orders.ReturnSources` | backend/app/services/purchase_order_service.py:629-654 | one guarded decrement per source row in order |
| `Orders.CancelPo` | backend/app/services/purchase_order_service.py:579-681 | the session call computes the specified tables and reply, which `OrderCalls.CancelledPoLeaves` and `CancelledPoRefused` state |
| `OrderRules.ConvertMeans` | backend/app/services/purchase_order_service.py:380-399 | the compare-and-sets all pass exactly when every line can bear the total taken from it, and then take exactly that |
| `OrderRules.WriteItemKeepsSources` | backend/app/services/purchase_order_service.py:362-405 | writing one order line keeps converted == live sources and ordered == sources |
| `OrderRules.CreatedPoKeepsRules` | backend/app/services/purchase_order_service.py:332-411 | create_po keeps the chain, the totals and the statuses, and touches nothing older |
| `OrderRules.GiveBackMeans` | backend/app/services/purchase_order_service.py:629-654 | guarded decrements succeed when every line holds the total asked back, and take exactly that |
| `OrderRules.GiveBackNeverFails` | backend/app/services/purchase_order_service.py:639-654 | on stored tables the data-anomaly branch is unreachable, and cancelling leaves converted == live sources |
| `OrderRules.CancelledPoKeepsRules` | backend/app/services/purchase_order_service.py:596-672 | cancel_po keeps the chain and turns exactly the requisitions back that have room again |
| `Acceptance.OrderPrecheckIs` | backend/app/services/purchase_order_service.py:306-350 | the prechecks of create_po pass exactly on a payload with items, an active supplier, sources in approved requisitions only, and lines of active materials, positive, whose sources add up; the first check that fails decides the error |
| `OrderCalls.CreatedPoLeaves` | backend/app/services/purchase_order_service.py:332-411 | create_po adds the draft of its buyer, one order line and its source rows for each item in payload order, the exact total, and the conversions; exactly the requisitions that became full turn CONVERTED; nothing else changes |
| `OrderCalls.CreatedPoRefused` | backend/app/services/purchase_order_service.py:306-405 | otherwise it is refused for its payload, for a requisition line asked for more than it has left, or for a source named twice in one line |
| `OrderCalls.ConfirmedPoIs` | backend/app/services/purchase_order_service.py:508-573 | confirm_po succeeds exactly on a draft at the given version with lines, all at a positive price, for its buyer or an administrator; only its status and version move; every refusal is told apart |
| `OrderCalls.CancelledPoLeaves` | backend/app/services/purchase_order_service.py:608-672 | in every reachable state cancel_po gives every requisition line back exactly what the order holds of it and turns exactly the converted requisitions it drew on back; nothing else changes |
| `OrderCalls.CancelledPoRefused` | backend/app/services/purchase_order_service.py:594-606 | in every reachable state it is refused only for a missing order, its status, its version or its caller |
| `Receipts.ReceiveAll` | backend/app/services/purchase_receipt_service.py:291-351 | the posting loop with its running dictionaries computes the lines, rows and per-key totals of the specification |
| `Receipts.ReverseAll` | backend/app/services/purchase_receipt_service.py:458-529 | the same for the reversal loop, every amount taken from the original row |
| `Receipts.ApplyTotals` | backend/app/services/purchase_receipt_service.py:353-363 | the aggregates applied key by key in lock order, the first refusal ending it |
| `Receipts.RecomputeStatus` | backend/app/services/purchase_receipt_service.py:147-177 | the order's status is derived afresh from its line quantities, nothing else changes |
| `Receipts.CreateReceipt` | backend/app/services/purchase_receipt_service.py:210-385 | the session call computes the specified tables and reply, with a complete rollback on any error; `ReceiptCalls.CreatedReceiptLeaves` and `CreatedReceiptRefused` state them |
| `Receipts.ReverseReceipt` | backend/app/services/purchase_receipt_service.py:391-565 | the session call computes the specified tables and reply, which `ReceiptCalls.ReversedReceiptLeaves` and `ReversedReceiptRefused` state |
| `ReceiptRules.ReceiveLinesWritten` | backend/app/services/purchase_receipt_service.py:292-330 | each item becomes one receipt line with the material and price of its order line |
| `ReceiptRules.LinesOfSum` | backend/app/services/purchase_receipt_service.py:443-452 | a sum over a receipt's lines does not depend on the order they are visited in |
| `ReceiptRules.ReceiptKeepsRules` | backend/app/services/purchase_receipt_service.py:291-371 | create_receipt keeps received == posted lines <= ordered, the order statuses and the chain |
| `ReceiptRules.ReversalKeepsRules` | backend/app/services/purchase_receipt_service.py:443-547 | reverse_receipt keeps them too |
| `ReceiptRules.PostedMeansReceived` | backend/app/services/purchase_receipt_service.py:147-177 | the order of a posted receipt is partially or fully received |
| `ReceiptRules.CancelNeverFindsReceipts` | backend/app/services/purchase_order_service.py:596-606 | the received-goods guard of cancel_po is unreachable behind the status guard |
| `Acceptance.ReceiptPrecheckIs` | backend/app/services/purchase_receipt_service.py:222-254 | the prechecks of create_receipt pass exactly on a payload of distinct lines of a receivable order, positive, of active materials, into an active warehouse; the first check that fails decides the error |
| `ReceiptCalls.CreatedReceiptLeaves` | backend/app/services/purchase_receipt_service.py:271-371 | in every reachable state create_receipt adds the posted document, one line and one ledger row for each request in the order of the order lines, moves each key and each order line by exactly what they bring, and derives the order's status; nothing else changes |
| `ReceiptCalls.CreatedReceiptRefused` | backend/app/services/purchase_receipt_service.py:222-315 | otherwise it is refused for its payload, or for a line that exceeds what remains |
| `ReceiptCalls.ReversedReceiptLeaves` | backend/app/services/purchase_receipt_service.py:419-547 | in every reachable state reverse_receipt marks the document, adds one mirror row for each of its lines, linked to its original, takes exactly what the receipt had brought off each key and order line, and derives the order's status; nothing else changes |
| `ReceiptCalls.ReversedReceiptRefused` | backend/app/services/purchase_receipt_service.py:407-540 | otherwise the document is missing or reversed, or the first key in lock order that no longer holds the goods decides the error |
| `LedgerRules.UndoneOnce` | backend/app/services/purchase_receipt_service.py:483-527 | no ledger row is undone twice; a reversal row mirrors the key, quantity and amount of an earlier receipt row |
| `LedgerRules.LockAndApplyPosts` | backend/app/services/purchase_receipt_service.py:353-363 | locking and applying the aggregates posts exactly the rows |
| `LedgerRules.LockAndApplySucceeds` | backend/app/services/inventory_service.py:182-221 | it fails exactly when some key would go below zero in quantity or value |
| `LedgerRules.ReceiptKeepsImage` | backend/app/services/purchase_receipt_service.py:317-351 | create_receipt adds exactly one ledger row per new receipt line |
| `LedgerRules.PostedLinesReverse` | backend/app/services/purchase_receipt_service.py:458-529 | on a posted receipt no line of the reversal loop is ever refused |
| `LedgerRules.ReversalKeepsImage` | backend/app/services/purchase_receipt_service.py:509-527 | reverse_receipt adds exactly one linked row per line of the receipt |
| `Counts.BuildItems` | backend/app/services/stock_reconciliation_service.py:279-298 | one frozen line per payload line, or the first error |
| `Counts.RebuildItems` | backend/app/services/stock_reconciliation_service.py:356-405 | the loop computes the specified lines or the first error, which `CountCalls.UpdatedCountIs` states: kept materials keep their snapshot and take the payload's rate, new ones take a snapshot, others are dropped |
| `Counts.CreateCount` | backend/app/services/stock_reconciliation_service.py:252-317 | the session call computes the specified tables and reply, which `CountCalls.CreatedCountIs` states |
| `Counts.UpdateCount` | backend/app/services/stock_reconciliation_service.py:320-451 | the session call computes the specified tables and reply, which `CountCalls.UpdatedCountIs` states |
| `Counts.SubmitCount` | backend/app/services/stock_reconciliation_service.py:454-504 | succeeds exactly on a draft with lines at the given version; the frozen lines and every other row stay |
| `Counts.PostAll` | backend/app/services/stock_reconciliation_service.py:586-689 | the posting loop: both guards, ledger row and balance for each differing line, in line order |
| `Counts.ApproveCount` | backend/app/services/stock_reconciliation_service.py:510-709 | the session call computes the specified tables and reply, with a complete rollback when a guard fails; `CountCalls.ApprovedCountIff` and `ApprovedCountLeaves` state them |
| `Counts.RejectCount` | backend/app/services/stock_reconciliation_service.py:712-760 | succeeds exactly on a pending count; the frozen lines and every other row stay |
| `CountRules.SnapshotFreezes` | backend/app/services/stock_reconciliation_service.py:159-185 | a snapshot equals the ledger prefix up to its watermark in quantity, value and average |
| `CountRules.KeptItemFits` | backend/app/services/stock_reconciliation_service.py:388-404 | an edited line keeps snapshot and watermark; its difference and amount follow from them, and a surplus is valued at the rate of the payload |
| `CountRules.UnmovedKeepsBook` | backend/app/services/stock_reconciliation_service.py:628-652 | passing the event guard implies passing the state guard |
| `CountRules.PostItemMeans` | backend/app/services/stock_reconciliation_service.py:622-689 | a differing line posts exactly when it is current and takes no more value than there is |
| `CountRules.PostItemsMeans` | backend/app/services/stock_reconciliation_service.py:618-689 | a count posts exactly when all its differing lines can, and is otherwise refused as stale or for its value |
| `CountRules.PostingKeepsImage` | backend/app/services/stock_reconciliation_service.py:654-678 | posting adds exactly one adjustment row per differing line |
| `CountRules.PostingKeepsCounts` | backend/app/services/stock_reconciliation_service.py:622-689 | every posted row sits right behind its line's watermark, every other count keeps its frozen lines |
| `CountCalls.CreatedCountIs` | backend/app/services/stock_reconciliation_service.py:194-317 | create_reconciliation succeeds exactly for an active warehouse and distinct active materials, nothing negative, every surplus with a positive rate; each line freezes the book as it is and is valued at the requested rate for a surplus, at the frozen average for a loss; every refusal is told apart |
| `CountCalls.UpdatedCountIs` | backend/app/services/stock_reconciliation_service.py:320-451 | update_reconciliation succeeds exactly on a draft or rejected count at the given version in an active warehouse with a payload in order; each kept material is recounted and revalued at the payload's rate against its frozen book, each new one against the book as it is; every refusal is told apart |
| `CountCalls.SubmittedCountIs` | backend/app/services/stock_reconciliation_service.py:454-504 | submit_reconciliation succeeds exactly on a draft with lines at the given version and moves only status and version |
| `CountCalls.RejectedCountIs` | backend/app/services/stock_reconciliation_service.py:712-760 | reject_reconciliation succeeds exactly on a pending count and moves only status and version |
| `CountCalls.ApprovedCountIff` | backend/app/services/stock_reconciliation_service.py:534-652 | in every reachable state approve_reconciliation succeeds exactly on a pending count, by somebody else than its counter or by the counter with permission, flag and reason, when every differing line still stands; every refusal is told apart |
| `CountCalls.ApprovedCountLeaves` | backend/app/services/stock_reconciliation_service.py:586-689 | it marks the count with its approver and whether that is the counter, adds one ledger row for each differing line in line order, and leaves every book as counted; nothing else changes |
| `Validity.ValidIsStored` | backend/app/models/purchase.py:224-282 | the foreign keys among requisition lines, orders, sources and receipts resolve, and what the services rely on is positive |
| `Validity.ValidPassesPurchaseChecks` | backend/app/models/purchase.py:105-271 | the CHECKs of requisition lines, order lines and sources, and the uniqueness of source pairs, follow from the invariants |
| `Validity.ValidPassesStockChecks` | backend/app/models/inventory.py:102-221 | so do those of receipt lines, balances and ledger rows |
| `Validity.ValidPassesCountChecks` | backend/app/models/reconciliation.py:132-143 | so do those of count lines, one per material |
| `Validity.RequisitionStepKeepsValid` | backend/app/services/purchase_requisition_service.py:265-913 | every edit and every workflow turn of a requisition keeps all invariants |
| `Validity.CreatedPoKeepsValid` | backend/app/services/purchase_order_service.py:290-426 | create_po keeps all invariants |
| `Validity.CancelledPoKeepsValid` | backend/app/services/purchase_order_service.py:579-681 | cancel_po keeps all invariants |
| `Validity.ReceiptKeepsValid` | backend/app/services/purchase_receipt_service.py:210-385 | create_receipt keeps all invariants |
| `Validity.ReversalKeepsValid` | backend/app/services/purchase_receipt_service.py:391-565 | reverse_receipt keeps all invariants |
| `Validity.CountEditKeepsValid` | backend/app/services/stock_reconciliation_service.py:252-504 | creating, editing, submitting and rejecting counts keep all invariants |
| `Validity.ApprovedCountKeepsValid` | backend/app/services/stock_reconciliation_service.py:510-709 | approve_reconciliation keeps all invariants |
| `Runs.CallKeepsValid` | backend/app/services/inventory_service.py:157-227 | every successful call of any service keeps all invariants |
| `Runs.Run` | backend/app/services/purchase_receipt_service.py:210-565 | every run of calls from empty tables, by any users against any master data, ends in a state with all invariants |
| `Runs.Serve` | backend/app/services/purchase_receipt_service.py:210-565 | a call served in a session is one step of the run and leaves the tables valid; an error leaves them unchanged |
| `Runs.ServeAll` | backend/app/services/purchase_receipt_service.py:210-565 | serving calls one after the other computes the run |
| `ChainLaws.CreatePoSucceedsIff` | backend/app/services/purchase_order_service.py:306-405 | create_po succeeds exactly when its payload is well asked, no line names a requisition line twice, and no requisition line is asked for more than it has left over all order lines |
| `ChainLaws.CancelPoSucceedsIff` | backend/app/services/purchase_order_service.py:594-654 | cancel_po succeeds exactly on a draft or confirmed order with the right version and caller |
| `ChainLaws.CancelPrSucceedsIff` | backend/app/services/purchase_requisition_service.py:596-623 | in every reachable state, cancel_pr succeeds exactly on a draft, or an approved requisition of which nothing is converted |
| `ChainLaws.OnlyConvertibleIsDrawnOn` | backend/app/services/purchase_requisition_service.py:599-623 | no live order draws on a cancelled or never approved requisition |
| `ChainLaws.CreateThenCancel` | backend/app/services/purchase_order_service.py:629-672 | creating an order and cancelling it restores every requisition, its lines and its status |
| `ChainLaws.ChainConserves` | backend/app/services/purchase_order_service.py:332-405 | over all tables, received <= ordered == converted <= requested |
| `Completion.OrderCompletes` | backend/app/services/purchase_order_service.py:379-411 | in every reachable state, ordering all that an approved requisition has left succeeds and turns it CONVERTED |
| `Completion.DeliveryCompletes` | backend/app/services/purchase_receipt_service.py:147-177 | in every reachable state, receiving all that an order lacks succeeds and turns it RECEIVED |
| `Completion.EveryPurchaseCompletes` | backend/app/services/purchase_order_service.py:290-573 | from every reachable state, all six calls from a well-formed requisition to its full delivery succeed |
| `EmptyStock.EveryPurchaseRuns` | backend/app/services/purchase_order_service.py:290-573 | after every run, any well-formed purchase can be carried to its last delivery by further calls of the run |
| `StockLaws.NetPurchases` | backend/app/services/purchase_receipt_service.py:332-348 | the receipt and reversal rows of a key add up to its live receipt lines, in quantity and money |
| `StockLaws.BookIsLiveStock` | backend/app/services/inventory_service.py:157-227 | every balance is its live receipt lines plus its adjustments, and its average their rounded quotient |
| `StockLaws.CreateReceiptSucceedsIff` | backend/app/services/purchase_receipt_service.py:222-363 | create_receipt succeeds exactly on a well delivered payload (active warehouse, receivable order, distinct positive own lines of active materials) no line of which exceeds what remains |
| `StockLaws.ReversalSucceedsIff` | backend/app/services/purchase_receipt_service.py:407-540 | reverse_receipt succeeds exactly on a posted receipt whose keys still hold its goods and their value |
| `StockLaws.ReversalLeaves` | backend/app/services/purchase_receipt_service.py:483-540 | on every key a reversal takes off exactly the quantity and money its receipt had brought in, and the average is the quotient of what is left |
| `StockLaws.EmptiedIsWorthlessIff` | backend/app/services/inventory_service.py:194-227 | a key that a reversal empties ends worthless exactly when it was worth what the receipt had brought in on it |
| `StockLaws.PostedStaysReversible` | backend/app/services/purchase_receipt_service.py:407-540 | a posted receipt stays reversible as long as no count took stock from its keys |
| `StockLaws.HistoryIndependent` | backend/app/services/purchase_receipt_service.py:483-540 | quantity, value and average of a key depend only on which goods are live and on the adjustments, not on order or reversals |
| `StockLaws.EmptyIsWorthless` | backend/app/services/inventory_service.py:206-226 | on a key no count adjusted, quantity 0 implies total 0 and average 0 |
| `StockLaws.CreateThenReverse` | backend/app/services/purchase_receipt_service.py:391-547 | posting a receipt and reversing it restores every balance, every received quantity and every order |
| `StockLaws.SplitDeliveryValue` | backend/app/services/purchase_receipt_service.py:317-327 | once a line is fully received over k live receipt lines, the booked amounts differ from its own by at most (k+1) half cents, by nothing for k = 1 |
| `CountLaws.EventGuardImpliesStateGuard` | backend/app/services/stock_reconciliation_service.py:628-652 | in every reachable state, no new row on a key means the frozen book still holds |
| `CountLaws.ApproveSucceedsIff` | backend/app/services/stock_reconciliation_service.py:534-689 | approval succeeds exactly on a submitted count, by someone who may post it, with every differing line current and bearable |
| `CountLaws.ApprovalSettles` | backend/app/services/stock_reconciliation_service.py:654-689 | afterwards each differing line's balance is what was counted and its value the frozen value plus the adjustment |
| `CountLaws.NoDoubleAdjustment` | backend/app/services/stock_reconciliation_service.py:628-640 | two counts from the same watermark never both adjust the same key |
| `CountLaws.PostingMakesStale` | backend/app/services/stock_reconciliation_service.py:628-640 | posting on a key makes every other open count of it refused |
| `CountLaws.WriteOffLeaves` | backend/app/services/stock_reconciliation_service.py:210-215 | a full write-off below 100 units always clears the value; above, the residue is bounded and refusal has an exact condition |
| `CountLaws.FreshCountPostsIff` | backend/app/services/stock_reconciliation_service.py:252-709 | creating, submitting and approving a count with nothing in between succeeds exactly when payload, four eyes and valuation allow it |
| `CountLaws.FreshCountIsExact` | backend/app/services/stock_reconciliation_service.py:586-689 | and then the book of every line, differing or not, is exactly what was counted |
| `CountLaws.EditKeepsSnapshots` | backend/app/services/stock_reconciliation_service.py:356-405 | editing never refreshes a snapshot: kept materials keep theirs, new ones take the current one |
| `Residues.WriteOffDecided` | backend/app/services/stock_reconciliation_service.py:194-216 | in every reachable state, counting 0 of a stock is refused exactly when its rounded average overshoots its value by half a cent; otherwise it leaves exactly the rounding residue on an empty balance |
| `Residues.RefusedWriteOff` | backend/app/services/inventory_service.py:206-221 | some run ends with 200 units worth one cent, which nobody can write off |
| `Residues.LeftoverWriteOff` | backend/app/services/inventory_service.py:222-226 | some run ends with 300 units worth one cent, and writing them off leaves quantity 0 worth one cent |
| `EmptyStock.ReversalLeavesFive` | backend/app/services/inventory_service.py:206-226 | some run ends with 5 units worth 10.00, which a count to 0 would clear, and reversing the receipt leaves quantity 0 worth 5.00 |
| `LockProtocol.NextKeepsInv` | backend/app/services/inventory_service.py:113-154 | locking, reading, appending, writing, committing and rolling back keep the invariant under any interleaving |
| `LockProtocol.Serializable` | backend/app/services/inventory_service.py:113-227 | at any moment every key not being posted has the balance and ledger rows of a sequential run of the committed transactions |
| `LockProtocol.ClaimedOnce` | backend/app/services/purchase_receipt_service.py:419-437 | no document is claimed by two committed transactions |
| `LockProtocol.NoWaitCycle` | backend/app/services/inventory_service.py:135-154 | the wait-for graph of claim rows and balance rows is acyclic |
| `LockProtocol.AlwaysProgress` | backend/app/services/inventory_service.py:135-154 | while anything is unfinished, some transaction can go on, or gives up because its document was taken or its plan refuses |
| `LockProtocol.ScheduleBounded` | backend/app/services/inventory_service.py:135-154 | no schedule is longer than what its transactions have to do |
| `LockedPostings.DocumentWorkIsSound` | backend/app/services/purchase_receipt_service.py:271-363 | rows planned for receipts and reversals, as locked transactions, run on from what is read under lock and stay covered |
| `LockedServices.TablesAreSlots` | backend/app/services/inventory_service.py:157-227 | the tables of every reachable state are a store the protocol may start from |
| `LockedServices.ReceiptRunsAsWork` | backend/app/services/purchase_receipt_service.py:271-363 | create_receipt is such a transaction, without a claim: run alone it leaves every key as the service does |
| `LockedServices.ReversalRunsAsWork` | backend/app/services/purchase_receipt_service.py:419-540 | reverse_receipt is one that claims its receipt; its plan refuses exactly when the service does, and otherwise leaves every key as the service does |
| `LockedCounts.CountWorkIsSound` | backend/app/services/stock_reconciliation_service.py:618-678 | guarded adjustments, as a locked transaction, run on from what is read under lock and stay covered |
| `LockedCounts.ApprovalRunsAsWork` | backend/app/services/stock_reconciliation_service.py:586-689 | approve_reconciliation is one that claims its count; its guards, read under lock, refuse exactly when the service does, and otherwise it leaves every key as the service does |
| `LockedCounts.NoDoubleAdjustmentInterleaved` | backend/app/services/stock_reconciliation_service.py:604-640 | in every schedule, two committed counts frozen at the same point of a key never both adjust it |
| `LockedRuns.CallRunsAsWork` | backend/app/services/purchase_receipt_service.py:271-540 | whichever call a transaction was started for, it refuses exactly when the service does and otherwise leaves every key as the service does |
| `LockedRuns.Undisturbed` | backend/app/services/purchase_receipt_service.py:419-452 | a reversal or an approval is still the same transaction after any stock call that claims another document |
| `LockedRuns.SerialIsInOrder` | backend/app/services/inventory_service.py:135-227 | transactions in sequence leave every key as their service calls in sequence, each succeeding exactly where it does |
| `LockedRuns.ScheduleIsServices` | backend/app/services/stock_reconciliation_service.py:586-689 | at any moment of any schedule, every committed call succeeds as a service call at its place in commit order, and every key not being posted is as those calls leave it |
| `LockedPostings.StockUnderConcurrency` | backend/app/services/inventory_service.py:113-227 | under any interleaving of receipts, reversals and counts, balance, average and every balance_after agree with the ledger on every key not being posted |
| `ConversionProtocol.ConversionsStayWithin` | backend/app/services/purchase_order_service.py:380-405 | at every step of any interleaving 0 <= converted <= requested, and a line nobody works on has converted exactly the committed live sources |
| `ConversionProtocol.GiveBackNeverFails` | backend/app/services/purchase_order_service.py:639-654 | the give-back guard never fails, whatever else is going on |
| `ConversionRuns.CommitsAloneIff` | backend/app/services/purchase_order_service.py:380-399 | alone, a transaction of compare-and-sets can commit exactly when it may begin and every line can bear all that it moves |
| `ConversionRuns.AloneEnds` | backend/app/services/purchase_order_service.py:380-405 | it has one state to commit in, and a rollback leaves every line and order as it was |
| `ConversionRuns.ValidIsInitial` | backend/app/services/purchase_order_service.py:332-405 | the tables of every reachable state are one the conversion protocol may start from |
| `ConversionRuns.CreateRunsAlone` | backend/app/services/purchase_order_service.py:306-411 | create_po run as such a transaction commits exactly when the service's compare-and-sets pass, and leaves lines and orders as the service does |
| `ConversionRuns.CancelRunsAlone` | backend/app/services/purchase_order_service.py:594-654 | cancel_po run as one can always commit on a live order, and leaves lines and orders as the service does |
| `ConversionSchedules.ScheduleIsServices` | backend/app/services/purchase_order_service.py:290-681 | at any moment of any schedule of both calls, the committed ones in commit order each succeed as service calls, and every line nobody works on has converted what those calls leave it |
| `Numbering.NumberSequences.NextSequenceValue` | backend/app/services/numbering_service.py:43-77 | the first number of a counter is 1, every later one the next, and only its row changes; without a date global keys use their fixed date and daily keys today |
| `Numbering.NumberSequences.NextCode` | backend/app/services/numbering_service.py:80-87 | for any key and prefix, the next number of the counter in exactly the layout prefix, dash, at least six digits with no zeros beyond the pad |
| `Numbering.NumberSequences.NextDailyCode` | backend/app/services/numbering_service.py:90-101 | for any key and prefix, the next number of the day's counter in exactly the layout prefix, dash, year, two digits of month and of day, dash, number padded to 4 |
| `Numbering.NumberSequences.NextTransactionNumber` | backend/app/services/inventory_service.py:233-237 | the next number of the ledger's own counter of the day in that layout under TXN, padded to 6 |
| `Numbering.PaddedRoundTrip` | backend/app/services/numbering_service.py:80-82 | a printed number reads back as itself, also past the pad width |
| `Numbering.PrintsOnce` | backend/app/services/numbering_service.py:80-101 | number and width leave exactly one way to print a number |
| `Numbering.CodesAreDistinct` | backend/app/services/numbering_service.py:80-101 | a code determines the kind of document, the date and the number |
| `Numbering.CommittedNumbersHaveNoGaps` | backend/app/services/numbering_service.py:20-26 | under any interleaving with rollbacks, the committed numbers of a counter are exactly 1..n |
| `Numbering.CommittedCodesDistinct` | backend/app/services/numbering_service.py:43-101 | no two committed documents carry the same code |

## Left out

- Routes, schemas, tokens, SQL sessions, migrations, audit texts, remarks, timestamps, list queries, dashboards and the
  frontend: input and output, or thin.
- Role permissions, master-data maintenance, departments and stock policies: only the ACTIVE flags, the department
  managers and the self-approval permission enter, as inputs that may differ from call to call.
- Object visibility of read calls, and who receives or submits: no table of this model depends on it.
- Balance and document rows are values inside one session field: aliasing between a locked row object and the session's
  own copy is not captured.
- Line numbers and their unique indexes, document numbers on the documents themselves, row versions of balances.
- An id is a position, so gaps of auto-increment columns do not occur; only their order matters to the code modelled.
- 18-digit overflow and the 28-digit context of the decimal division: integers are unbounded here.
- A valuation rate is taken to have 4 decimals; the schema does not bound it, and the amount uses the raw rate.
- Statement-level interleaving of received quantities and order statuses, and create_po racing cancel_pr: each service
  call is one atomic transaction outside the two protocol modules.
- Snapshot visibility of the database and write-back of earlier reads by the mapper; the watermark of an approval is a
  current read under the lock.
- Deadlocks that involve sequence rows, order rows and order-line rows: only claim rows and balance rows are ordered.
- The clock: the date of today is a parameter of the numbering calls.
- `LockedRuns.ScheduleIsServices`: that the order of a receipt accepts it where it commits is a hypothesis, because
  order rows and order lines are not among the rows of the lock protocol.
- `ConversionSchedules.ScheduleIsServices`: the checks before the first compare-and-set are taken against the tables
  the schedule starts on, because only orders and requisition lines change in the protocol.
- `LockProtocol.Serializable`: the global order of ledger ids across keys is not part of the statement, only each
  key's rows.
