/** One validity over all tables: every service call, by any user and against any master data, keeps it. */
module Validity {
  import opened Tables
  import opened Inventory
  import opened RequisitionRules
  import opened OrderRules
  import opened ReceiptRules
  import opened LedgerRules
  import opened CountRules
  import Requisitions
  import Orders
  import Receipts
  import Counts

  ghost predicate Valid(db: Db) {
    && RequisitionsOk(db) && OrdersOk(db)
    && ReceiptsFit(db.pos, db.poLines, db.receipts, db.receiptLines)
    && StockOk(db.ledger, db.balances)
    && ImageFits(db.receipts, db.receiptLines, db.counts, db.ledger)
    && CountsFit(db.counts, db.ledger)
  }

  lemma {:induction false} EmptyIsValid()
    ensures Valid(EMPTY)
  {
  }

  // The foreign keys and positive quantities the services rely on follow.
  lemma {:induction false} ValidIsStored(db: Db)
    requires Valid(db)
    ensures Stored(db)
  {
    LinesFitKeys(db.prs, db.prLines, db.nextPrLine);
    OrderKeysFollow(db.prs, db.prLines, db.pos, db.poLines, db.sources);
    ReceiptKeysFollow(db.pos, db.poLines, db.receipts, db.receiptLines);
  }

  // ---------------------------------------------------------------------------------------------
  // The CHECK and UNIQUE constraints on quantities and money: the database would never refuse a row
  // ---------------------------------------------------------------------------------------------

  predicate RequisitionLineChecks(l: PrLine) {
    l.requested > 0 && l.price >= 0 && 0 <= l.converted <= l.requested
  }

  predicate OrderLineChecks(l: PoLine) {
    l.ordered > 0 && 0 <= l.received <= l.ordered && l.price >= 0
  }

  ghost predicate PurchaseChecks(db: Db) {
    && (forall l :: l in db.prLines ==> RequisitionLineChecks(db.prLines[l]))
    && (forall j :: 0 <= j < |db.poLines| ==> OrderLineChecks(db.poLines[j]))
    && (forall i :: 0 <= i < |db.sources| ==> db.sources[i].quantity > 0)
    && (forall i, j :: 0 <= i < j < |db.sources| ==> !SamePair(db.sources[i], db.sources[j]))
  }

  lemma {:induction false} ValidPassesPurchaseChecks(db: Db)
    requires RequisitionsOk(db) && OrdersOk(db) && ReceiptsFit(db.pos, db.poLines, db.receipts, db.receiptLines)
    ensures PurchaseChecks(db)
  {
    forall l | l in db.prLines ensures RequisitionLineChecks(db.prLines[l]) { assert LineFits(db.prLines[l]); }
    forall j | 0 <= j < |db.poLines| ensures OrderLineChecks(db.poLines[j]) {
      assert PoLineFits(db.pos, db.poLines[j]);
      assert ReceivedFits(db.poLines, db.receipts, db.receiptLines, j);
    }
    forall i | 0 <= i < |db.sources| ensures db.sources[i].quantity > 0 {
      assert SourceFits(db.prs, db.prLines, db.poLines, db.sources[i]);
    }
  }

  predicate ReceiptLineChecks(l: ReceiptLine) {
    l.quantity > 0 && l.price >= 0
  }

  predicate BalanceRowChecks(b: Balance) {
    b.quantity >= 0 && b.total >= 0 && b.average >= 0
  }

  ghost predicate StockChecks(db: Db) {
    && (forall n :: 0 <= n < |db.receiptLines| ==> ReceiptLineChecks(db.receiptLines[n]))
    && (forall k :: k in db.balances ==> BalanceRowChecks(db.balances[k]))
    && (forall i :: 0 <= i < |db.ledger| ==> Signed(db.ledger[i]))
  }

  lemma {:induction false} ValidPassesStockChecks(db: Db)
    requires OrdersOk(db) && ReceiptsFit(db.pos, db.poLines, db.receipts, db.receiptLines)
    requires StockOk(db.ledger, db.balances)
    ensures StockChecks(db)
  {
    forall n | 0 <= n < |db.receiptLines| ensures ReceiptLineChecks(db.receiptLines[n]) {
      assert ReceiptLineFits(db.poLines, db.receipts, db.receiptLines[n]);
      assert PoLineFits(db.pos, db.poLines[db.receiptLines[n].poLine]);
    }
    forall k | k in db.balances ensures BalanceRowChecks(db.balances[k]) {
      assert Agrees(db.ledger, k, db.balances[k]);
    }
    forall i | 0 <= i < |db.ledger| ensures Signed(db.ledger[i]) { assert RowReplays(db.ledger, i); }
  }

  predicate CountItemChecks(item: CountItem) {
    && item.physical >= 0 && BalanceRowChecks(Book(item))
    && (item.rate.Some? ==> item.rate.value > 0)
  }

  ghost predicate CountChecks(db: Db) {
    forall c, n :: 0 <= c < |db.counts| && 0 <= n < |db.counts[c].items| ==> CountItemChecks(db.counts[c].items[n])
  }

  ghost predicate OneLinePerMaterial(db: Db) {
    forall c :: 0 <= c < |db.counts| ==> DistinctMaterials(db.counts[c].items)
  }

  lemma {:induction false} ValidPassesCountChecks(db: Db)
    requires CountsFit(db.counts, db.ledger)
    ensures CountChecks(db) && OneLinePerMaterial(db)
  {
    forall c | 0 <= c < |db.counts| ensures DistinctMaterials(db.counts[c].items) {
      assert CountFits(db.ledger, db.counts[c]);
    }
    forall c, n | 0 <= c < |db.counts| && 0 <= n < |db.counts[c].items| ensures CountItemChecks(db.counts[c].items[n]) {
      assert CountFits(db.ledger, db.counts[c]);
      assert CountRules.ItemFits(db.ledger, db.counts[c].warehouse, db.counts[c].items[n]);
    }
  }

  // ---------------------------------------------------------------------------------------------
  // Requisition calls
  // ---------------------------------------------------------------------------------------------

  lemma {:induction false} EditKeepsValid(db: Db, after: Db, p: nat, pr: Pr, e: Requisitions.Edit, action: AuditAction)
    requires Valid(db) && IsEdit(db, after, p, pr, e, action)
    ensures Valid(after)
  {
    hide ReceiptsFit, StockOk, ImageFits, CountsFit;
    EditKeepsRules(db, p, pr, e, action);
    EditKeepsSources(db.prs, db.prLines, db.nextPrLine, db.pos, db.poLines, db.sources, after.prs, p, e);
  }

  lemma {:induction false} TurnKeepsValid(db: Db, after: Db, p: nat, to: PrStatus, more: seq<Approval>,
          action: AuditAction)
    requires Valid(db) && IsTurn(db, after, p, to, more, action)
    ensures Valid(after)
  {
    hide ReceiptsFit, StockOk, ImageFits, CountsFit;
    TurnKeepsRules(db, p, to, more, action);
    TurnKeepsSources(db.prs, db.prLines, db.pos, db.poLines, db.sources, p, to);
  }

  lemma {:induction false} RequisitionStepKeepsValid(db: Db, after: Db)
    requires Valid(db) && RequisitionStep(db, after)
    ensures Valid(after)
  {
    if p, pr, e, action :| IsEdit(db, after, p, pr, e, action) {
      EditKeepsValid(db, after, p, pr, e, action);
    } else {
      var p, to, more, action :| IsTurn(db, after, p, to, more, action);
      TurnKeepsValid(db, after, p, to, more, action);
    }
  }

  // What a call on requisition p may rely on.
  ghost predicate Documented(db: Db, p: nat) {
    && p < |db.prs| && RequisitionKeys(db.prs, db.prLines, db.nextPrLine)
    && HeaderFits(db.prs, db.prLines, p) && StatusFits(db.prs[p].status, db.prLines, p)
    && Requisitions.Recomputed(db.prLines, db.prs[p].items) == Ok((db.prLines, db.prs[p].total))
    && (db.prs[p].items != [] && NothingConverted(db.prLines, p) ==> StatusFits(PrApproved, db.prLines, p))
    && (!Requisitions.HasActivePo(db, p) ==> NothingConverted(db.prLines, p))
  }

  lemma {:induction false} ValidIsDocumented(db: Db, p: nat)
    requires Valid(db) && p < |db.prs|
    ensures Documented(db, p)
  {
    LinesFitKeys(db.prs, db.prLines, db.nextPrLine);
    RecomputeIsStable(db.prs, db.prLines, db.nextPrLine, p);
    if db.prs[p].items != [] && NothingConverted(db.prLines, p) { NotFullYet(db.prs, db.prLines, db.nextPrLine, p); }
    if !Requisitions.HasActivePo(db, p) { NoActivePoNothingConverted(db, p); }
  }

  // ---------------------------------------------------------------------------------------------
  // Order calls
  // ---------------------------------------------------------------------------------------------

  lemma {:induction false} CreatedPoKeepsValid(db: Db, user: User, m: Master, supplier: int,
          items: seq<Orders.ItemRequest>, after: Db)
    requires Valid(db) && Orders.CreatedPo(db, user, m, supplier, items) == Ok(after)
    ensures Valid(after)
  {
    CreatedPoKeepsRules(db, user, m, supplier, items, after);
    CreatedPoKeepsReceipts(db, user, m, supplier, items, after);
  }

  lemma {:induction false} ConfirmedPoKeepsValid(db: Db, user: User, po: nat, version: nat, after: Db)
    requires Valid(db) && Orders.ConfirmedPo(db, user, po, version) == Ok(after)
    ensures Valid(after)
  {
    ConfirmedPoKeepsRules(db, user, po, version);
    ConfirmedPoKeepsReceipts(db, user, po, version);
  }

  lemma {:induction false} CancelledPoKeepsValid(db: Db, user: User, po: nat, version: nat, after: Db)
    requires Valid(db) && OrderKeys(db.pos, db.poLines, db.sources, db.prLines)
    requires Orders.CancelledPo(db, user, po, version) == Ok(after)
    ensures Valid(after)
  {
    CancelledPoKeepsRules(db, user, po, version, after);
    CancelledPoKeepsReceipts(db, user, po, version);
  }

  // ---------------------------------------------------------------------------------------------
  // Receipt calls
  // ---------------------------------------------------------------------------------------------

  // Calls on other documents only add an audit row to what concerns requisitions.
  lemma {:induction false} AuditedKeepsRequisitions(db: Db, after: Db, a: Audit)
    requires RequisitionsOk(db) && !OnRequisition(a.action)
    requires after.prs == db.prs && after.prLines == db.prLines && after.nextPrLine == db.nextPrLine
    requires after.approvals == db.approvals && after.audit == db.audit + [a]
    ensures RequisitionsOk(after)
  {
    FlipsKeepTrails(db.prs, db.approvals, db.audit, db.prs, a);
  }

  lemma {:induction false} PostedRowsKeepStock(db: Db, rows: seq<Txn>, applied: map<Key, Balance>)
    requires StockOk(db.ledger, db.balances) && PostsRows(db.balances, rows, applied)
    ensures StockOk(db.ledger + rows, applied)
  {
    PostKeepsStock(db.ledger, db.balances, rows);
  }

  lemma {:induction false} PriceNonNegative(pos: seq<Po>, poLines: seq<PoLine>)
    requires OrdersFit(pos, poLines)
    ensures forall j :: 0 <= j < |poLines| ==> poLines[j].price >= 0
  {
    forall j | 0 <= j < |poLines| ensures poLines[j].price >= 0 { assert PoLineFits(pos, poLines[j]); }
  }

  // The ledger side of create_receipt.
  lemma {:induction false} ReceiveGoodsKeepsLedger(db: Db, po: nat, warehouse: int, todo: seq<Receipts.ReceiveRequest>)
    requires Valid(db) && TodoFits(db.poLines, po, todo) && Receipts.ReceiveGoods(db, warehouse, todo).Ok?
    ensures var r := Receipts.ReceiveGoods(db, warehouse, todo).value;
      && StockOk(db.ledger + r.w.rows, r.balances)
      && ImageFits(db.receipts + [Receipt(po, warehouse, Posted)], r.w.lines, db.counts, db.ledger + r.w.rows)
      && CountsFit(db.counts, db.ledger + r.w.rows)
  {
    var r := Receipts.ReceiveGoods(db, warehouse, todo).value;
    PriceNonNegative(db.pos, db.poLines);
    ReceiveGoodsPosts(db, warehouse, todo);
    PostedRowsKeepStock(db, r.w.rows, r.balances);
    ReceiveGoodsFits(db, po, warehouse, todo);
    ReceiptKeysFollow(db.pos, db.poLines, db.receipts, db.receiptLines);
    ReceiptKeepsImage(db.receipts, db.receiptLines, db.counts, db.ledger, db.balances, Receipt(po, warehouse, Posted),
                      r.w);
    forall k | 0 <= k < |r.w.rows| ensures !r.w.rows[k].source.CountSource? {
      assert RowReceives(db.balances, warehouse, |db.receipts|, |db.receiptLines|, r.w, k);
    }
    OtherRowsKeepCounts(db.counts, db.ledger, r.w.rows);
  }

  lemma {:induction false} ReceiptKeepsLedger(db: Db, after: Db, po: nat, warehouse: int,
          todo: seq<Receipts.ReceiveRequest>)
    requires Valid(db) && IsReceipt(db, after, po, warehouse, todo)
    ensures StockOk(after.ledger, after.balances) && CountsFit(after.counts, after.ledger)
    ensures ImageFits(after.receipts, after.receiptLines, after.counts, after.ledger)
  {
    ReceiveGoodsKeepsLedger(db, po, warehouse, todo);
  }

  lemma {:induction false} ReceiptKeepsRequisitions(db: Db, after: Db, po: nat, warehouse: int,
          todo: seq<Receipts.ReceiveRequest>)
    requires RequisitionsOk(db) && IsReceipt(db, after, po, warehouse, todo)
    ensures RequisitionsOk(after)
  {
    hide RequisitionsOk, Receipts.ReceiveGoods, TodoFits;
    AuditedKeepsRequisitions(db, after, Audit(ReceiptPosted, |db.receipts|));
  }

  lemma {:induction false} ReceiptKeepsValid(db: Db, after: Db, po: nat, warehouse: int,
          todo: seq<Receipts.ReceiveRequest>)
    requires Valid(db) && IsReceipt(db, after, po, warehouse, todo)
    ensures Valid(after)
  {
    ReceiptKeepsRules(db, after, po, warehouse, todo);
    ReceiptKeepsLedger(db, after, po, warehouse, todo);
    ReceiptKeepsRequisitions(db, after, po, warehouse, todo);
  }

  // A posted receipt is one that can be reversed line by line.
  lemma {:induction false} PostedIsReversible(db: Db, receipt: nat)
    requires Valid(db) && receipt < |db.receipts| && db.receipts[receipt].status == Posted
    ensures ReversibleIn(db, receipt)
  {
    PriceNonNegative(db.pos, db.poLines);
  }

  lemma {:induction false} UndoGoodsKeepsLedger(db: Db, receipt: nat)
    requires Valid(db) && ReversibleIn(db, receipt)
    requires Covered(db.balances, UndoRows(db, receipt))
    ensures StockOk(db.ledger + UndoRows(db, receipt), Post(db.balances, UndoRows(db, receipt)))
    ensures ImageFits(db.receipts[receipt := db.receipts[receipt].(status := Reversed)], db.receiptLines, db.counts,
                      db.ledger + UndoRows(db, receipt))
    ensures CountsFit(db.counts, db.ledger + UndoRows(db, receipt))
  {
    var rows, ns := UndoRows(db, receipt), Receipts.LinesOf(db.receiptLines, receipt);
    UndoGoodsPosts(db, receipt);
    PostedRowsKeepStock(db, rows, Post(db.balances, rows));
    UndoRowsReady(db, receipt);
    ReversalKeepsImage(db, receipt, ns, rows);
    forall k | 0 <= k < |rows| ensures !rows[k].source.CountSource? { assert RowUndoes(db, receipt, ns[k], rows, k); }
    OtherRowsKeepCounts(db.counts, db.ledger, rows);
  }

  lemma {:induction false} ReversalKeepsLedger(db: Db, after: Db, receipt: nat)
    requires Valid(db) && IsReversal(db, after, receipt)
    ensures StockOk(after.ledger, after.balances) && CountsFit(after.counts, after.ledger)
    ensures ImageFits(after.receipts, after.receiptLines, after.counts, after.ledger)
  {
    PostedIsReversible(db, receipt);
    UndoGoodsPosts(db, receipt);
    UndoGoodsKeepsLedger(db, receipt);
  }

  lemma {:induction false} ReversalKeepsValid(db: Db, after: Db, receipt: nat)
    requires Valid(db) && IsReversal(db, after, receipt)
    ensures Valid(after)
  {
    ReversalKeepsRules(db, after, receipt);
    ReversalKeepsLedger(db, after, receipt);
    AuditedKeepsRequisitions(db, after, Audit(ReceiptWasReversed, receipt));
  }

  // ---------------------------------------------------------------------------------------------
  // Count calls
  // ---------------------------------------------------------------------------------------------

  // A call that creates or changes a count that is not posted.
  ghost predicate IsCountEdit(db: Db, after: Db, doc: nat, c: Count, action: AuditAction) {
    && doc <= |db.counts| && (doc < |db.counts| ==> db.counts[doc].status != CountPosted)
    && c.status != CountPosted && CountFits(db.ledger, c) && !OnRequisition(action)
    && after == db.(counts := if doc < |db.counts| then db.counts[doc := c] else db.counts + [c],
                    audit := db.audit + [Audit(action, doc)])
  }

  ghost predicate CountStep(db: Db, after: Db) {
    exists doc, c, action :: IsCountEdit(db, after, doc, c, action)
  }

  lemma {:induction false} CountEditKeepsValid(db: Db, after: Db, doc: nat, c: Count, action: AuditAction)
    requires Valid(db) && IsCountEdit(db, after, doc, c, action)
    ensures Valid(after)
  {
    forall i | 0 <= i < |after.counts| ensures CountFits(db.ledger, after.counts[i]) {
      if i != doc { assert CountFits(db.ledger, db.counts[i]); }
    }
    EditKeepsImage(db.receipts, db.receiptLines, db.counts, db.ledger, after.counts);
    EditKeepsCounts(db.receipts, db.receiptLines, db.counts, db.ledger, after.counts);
    AuditedKeepsRequisitions(db, after, Audit(action, doc));
  }

  lemma {:induction false} CreatedCountSteps(db: Db, user: User, m: Master, warehouse: int,
          lines: seq<Counts.CountRequest>, after: Db)
    requires StockOk(db.ledger, db.balances) && Counts.CreatedCount(db, user, m, warehouse, lines) == Ok(after)
    ensures CountStep(db, after)
  {
    NewItemsFit(db, m, warehouse, lines, {}, []);
    var c := Count(warehouse, user.id, CountDraft, Counts.NewItems(db, warehouse, lines, []).value, 1, None, false);
    assert IsCountEdit(db, after, |db.counts|, c, CountEdited);
  }

  lemma {:induction false} UpdatedCountSteps(db: Db, m: Master, doc: nat, version: nat,
          lines: seq<Counts.CountRequest>, after: Db)
    requires StockOk(db.ledger, db.balances) && Counts.UpdatedCount(db, m, doc, version, lines) == Ok(after)
    requires doc < |db.counts| && CountFits(db.ledger, db.counts[doc])
    ensures CountStep(db, after)
  {
    RebuildFits(db, m, db.counts[doc].warehouse, db.counts[doc].items, lines, []);
    assert IsCountEdit(db, after, doc, after.counts[doc], CountEdited);
  }

  lemma {:induction false} SubmittedCountSteps(db: Db, doc: nat, version: nat, after: Db)
    requires Counts.SubmittedCount(db, doc, version) == Ok(after) && doc < |db.counts|
    requires CountFits(db.ledger, db.counts[doc])
    ensures CountStep(db, after)
  {
    SameItemsFit(db.ledger, db.counts[doc], after.counts[doc]);
    assert IsCountEdit(db, after, doc, after.counts[doc], CountSubmitted);
  }

  lemma {:induction false} RejectedCountSteps(db: Db, doc: nat, after: Db)
    requires Counts.RejectedCount(db, doc) == Ok(after) && doc < |db.counts| && CountFits(db.ledger, db.counts[doc])
    ensures CountStep(db, after)
  {
    SameItemsFit(db.ledger, db.counts[doc], after.counts[doc]);
    assert IsCountEdit(db, after, doc, after.counts[doc], CountWasRejected);
  }

  lemma {:induction false} PostingKeepsValid(db: Db, doc: nat, w: Counts.Posting, approver: int, selfApproved: bool)
    requires Valid(db) && doc < |db.counts| && db.counts[doc].status == CountPending && PostingOf(db, doc) == Ok(w)
    requires approver != db.counts[doc].countedBy || selfApproved
    ensures Valid(WithPosting(db, doc, w, approver, selfApproved))
  {
    var after, c := WithPosting(db, doc, w, approver, selfApproved), db.counts[doc];
    assert CountFits(db.ledger, c);
    PostingMeans(db, doc);
    PostingKeepsImage(db, doc, after.counts, w);
    PostingKeepsCounts(db, doc, after.counts, w.rows);
    AuditedKeepsRequisitions(db, after, Audit(CountApproved, doc));
  }

  lemma {:induction false} ApprovedCountKeepsValid(db: Db, user: User, doc: nat, overrideFlag: bool,
          overrideReason: bool, after: Db)
    requires Valid(db) && Counts.ApprovedCount(db, user, doc, overrideFlag, overrideReason) == Ok(after)
    ensures Valid(after)
  {
    assert CountFits(db.ledger, db.counts[doc]);
    ApprovedCountIs(db, user, doc, overrideFlag, overrideReason);
    PostingKeepsValid(db, doc, PostingOf(db, doc).value, user.id,
                      Counts.MayPost(db.counts[doc], user, overrideFlag, overrideReason).value);
  }
}
