/** A purchase is a run of calls; and a run after which a reversal empties a key that is still worth five. */
module EmptyStock {
  import opened Sums
  import opened Money
  import opened Tables
  import opened Inventory
  import opened Validity
  import opened Runs
  import opened Completion
  import opened StockLaws
  import opened Residues
  import Requisitions
  import Orders
  import Receipts
  import ReceiptRules
  import Counts

  // ---------------------------------------------------------------------------------------------
  // Six successful calls are six steps of a run
  // ---------------------------------------------------------------------------------------------

  lemma {:induction false} PrCreationRuns(past: seq<Request>, x: Purchase, after: Db)
    requires Keyed(Run(past)) && Requisitions.CreatedPr(Run(past), x.applicant, x.m, x.lines) == Ok(after)
    ensures Run(past + [Request(x.applicant, x.m, CreatePr(x.lines))]) == after
  {
    hide Valid, Stored, Requisitions.CreatedPr;
    ValidIsStored(Run(past));
    RunNext(past, Request(x.applicant, x.m, CreatePr(x.lines)), after);
  }

  lemma {:induction false} PrSubmissionRuns(past: seq<Request>, x: Purchase, p: nat, after: Db)
    requires Keyed(Run(past)) && Requisitions.SubmittedPr(Run(past), x.applicant, x.m, p) == Ok(after)
    ensures Run(past + [Request(x.applicant, x.m, SubmitPr(p))]) == after
  {
    hide Valid, Stored, Requisitions.SubmittedPr;
    ValidIsStored(Run(past));
    RunNext(past, Request(x.applicant, x.m, SubmitPr(p)), after);
  }

  lemma {:induction false} PrApprovalRuns(past: seq<Request>, x: Purchase, p: nat, after: Db)
    requires Keyed(Run(past)) && Requisitions.ApprovedPr(Run(past), x.approver, x.m, p, 2) == Ok(after)
    ensures Run(past + [Request(x.approver, x.m, ApprovePr(p, 2))]) == after
  {
    hide Valid, Stored, Requisitions.ApprovedPr;
    ValidIsStored(Run(past));
    RunNext(past, Request(x.approver, x.m, ApprovePr(p, 2)), after);
  }

  lemma {:induction false} PoCreationRuns(past: seq<Request>, x: Purchase, items: seq<Orders.ItemRequest>, after: Db)
    requires Orders.CreatedPo(Run(past), x.buyer, x.m, x.supplier, items) == Ok(after)
    ensures Run(past + [Request(x.buyer, x.m, CreatePo(x.supplier, items))]) == after
  {
    hide Valid, Stored, Orders.CreatedPo;
    ValidIsStored(Run(past));
    RunNext(past, Request(x.buyer, x.m, CreatePo(x.supplier, items)), after);
  }

  lemma {:induction false} PoConfirmationRuns(past: seq<Request>, x: Purchase, po: nat, after: Db)
    requires Orders.ConfirmedPo(Run(past), x.buyer, po, 1) == Ok(after)
    ensures Run(past + [Request(x.buyer, x.m, ConfirmPo(po, 1))]) == after
  {
    hide Valid, Stored, Orders.ConfirmedPo;
    ValidIsStored(Run(past));
    RunNext(past, Request(x.buyer, x.m, ConfirmPo(po, 1)), after);
  }

  lemma {:induction false} ReceiptRuns(past: seq<Request>, x: Purchase, po: nat, goods: seq<Receipts.ReceiveRequest>,
          after: Db)
    requires Receipts.CreatedReceipt(Run(past), x.m, po, x.warehouse, goods) == Ok(after)
    ensures Run(past + [Request(x.buyer, x.m, CreateReceipt(po, x.warehouse, goods))]) == after
  {
    hide Valid, Stored, Receipts.CreatedReceipt;
    ValidIsStored(Run(past));
    RunNext(past, Request(x.buyer, x.m, CreateReceipt(po, x.warehouse, goods)), after);
  }

  lemma {:induction false} ApprovedCourseRuns(past: seq<Request>, x: Purchase, db: Db, p: nat, c: Course)
    returns (calls: seq<Request>)
    requires Run(past) == db && GetsApproved(db, x, p, c)
    ensures Run(calls) == c.approved
  {
    hide Valid, Requisitions.CreatedPr, Requisitions.SubmittedPr, Requisitions.ApprovedPr, Run;
    PrCreationRuns(past, x, c.created);
    calls := past + [Request(x.applicant, x.m, CreatePr(x.lines))];
    PrSubmissionRuns(calls, x, p, c.submitted);
    calls := calls + [Request(x.applicant, x.m, SubmitPr(p))];
    PrApprovalRuns(calls, x, p, c.approved);
    calls := calls + [Request(x.approver, x.m, ApprovePr(p, 2))];
  }

  lemma {:induction false} DeliveredCourseRuns(past: seq<Request>, x: Purchase, p: nat, po: nat, c: Course)
    returns (calls: seq<Request>)
    requires Run(past) == c.approved && GetsDelivered(x, p, po, c)
    ensures Run(calls) == c.delivered
  {
    hide Valid, Orders.CreatedPo, Orders.ConfirmedPo, Receipts.CreatedReceipt, Run, AllLeft, Rest;
    PoCreationRuns(past, x, AllLeft(c.approved, p), c.ordered);
    calls := past + [Request(x.buyer, x.m, CreatePo(x.supplier, AllLeft(c.approved, p)))];
    PoConfirmationRuns(calls, x, po, c.confirmed);
    calls := calls + [Request(x.buyer, x.m, ConfirmPo(po, 1))];
    ReceiptRuns(calls, x, po, Rest(c.confirmed, po), c.delivered);
    calls := calls + [Request(x.buyer, x.m, CreateReceipt(po, x.warehouse, Rest(c.confirmed, po)))];
  }

  // After every run, every well-formed purchase can be carried to its last delivery by further calls of the run.
  lemma {:induction false} EveryPurchaseRuns(past: seq<Request>, x: Purchase) returns (calls: seq<Request>, c: Course)
    requires WellStaffed(x)
    ensures GetsApproved(Run(past), x, |Run(past).prs|, c) && GetsDelivered(x, |Run(past).prs|, |Run(past).pos|, c)
    ensures Run(calls) == c.delivered && Completed(c.delivered, |Run(past).prs|, |Run(past).pos|)
  {
    hide Valid, WellStaffed, GetsApproved, GetsDelivered, Completed, Run;
    c := EveryPurchaseCompletes(Run(past), x);
    calls := ApprovedCourseRuns(past, x, Run(past), |Run(past).prs|, c);
    calls := DeliveredCourseRuns(calls, x, |Run(past).prs|, |Run(past).pos|, c);
  }

  // ---------------------------------------------------------------------------------------------
  // Five pieces at 1.00, bought from empty tables
  // ---------------------------------------------------------------------------------------------

  const CHIEF := User(1, true, true, Some(3), true)
  const FIVE := Purchase(CHIEF, CHIEF, CHIEF,
                         Master(map[7 := true], map[9 := true], map[5 := true], map[3 := true], {}),
                         [Requisitions.LineRequest(None, 7, 50_000, 10_000)], 5, 9)
  const FIVE_ASKED := PrLine(0, 7, 50_000, 0, 10_000, 500)
  const FIVE_ORDERED := PoLine(0, 7, 50_000, 0, 10_000, 500)
  const FIVE_RECEIVED := ReceiptLine(0, 0, 7, 50_000, 10_000, 500)

  lemma {:induction false} FiveIsFive()
    ensures LineAmount(50_000, 10_000) == 500
  {
    HalfUpUnique(500_000_000, UNITS_PER_CENT, 500);
  }

  lemma {:induction false} FiveSyncs(st: Requisitions.Synced)
    requires st == Requisitions.Synced(map[0 := FIVE_ASKED.(amount := 0)], 1, [0], {})
    ensures Requisitions.AsNew(FIVE.lines) == FIVE.lines
    ensures Requisitions.SyncLines(FIVE.m, 0, [], Requisitions.Synced(map[], 0, [], {}), FIVE.lines) == Ok(st)
    ensures Requisitions.ItemsAfter([], st) == [0] && Requisitions.LinesAfter([], st) == st.lines
  {
    var none: seq<nat> := [];
    assert FIVE.lines[1..] == [] && Requisitions.AsNew(FIVE.lines) == FIVE.lines;
    assert Requisitions.ItemsAfter(none, st) == [0] && Requisitions.LinesAfter(none, st) == st.lines;
    assert Requisitions.SyncLine(FIVE.m, 0, [], Requisitions.Synced(map[], 0, [], {}), FIVE.lines[0]) == Ok(st);
    assert Requisitions.SyncLines(FIVE.m, 0, [], st, FIVE.lines[1..]) == Ok(st);
  }

  lemma {:induction false} FiveCreates(created: Db)
    requires Keyed(EMPTY) && Requisitions.CreatedPr(EMPTY, CHIEF, FIVE.m, FIVE.lines) == Ok(created)
    ensures created.prLines == map[0 := FIVE_ASKED] && |created.prs| == 1 && created.prs[0].items == [0]
    ensures created.poLines == [] && created.pos == [] && created.receipts == [] && created.receiptLines == []
    ensures created.sources == [] && created.ledger == [] && created.balances == map[]
  {
    hide Requisitions.SyncLines, Requisitions.ItemsAfter, Requisitions.LinesAfter;
    var st := Requisitions.Synced(map[0 := FIVE_ASKED.(amount := 0)], 1, [0], {});
    FiveSyncs(st);
    FiveIsFive();
    assert Requisitions.Repriced(st.lines, [0]) == map[0 := FIVE_ASKED];
  }

  // Submitting and approving leave lines, orders and stock alone.
  predicate SameGoodsAs(a: Db, b: Db) {
    && a.prLines == b.prLines && a.poLines == b.poLines && a.pos == b.pos && a.sources == b.sources
    && a.receipts == b.receipts && a.receiptLines == b.receiptLines && a.ledger == b.ledger && a.balances == b.balances
    && |a.prs| == |b.prs| && forall p :: 0 <= p < |a.prs| ==> a.prs[p].items == b.prs[p].items
  }

  lemma {:induction false} SubmissionKeepsGoods(db: Db, x: Purchase, p: nat, after: Db)
    requires Keyed(db) && Documented(db, p) && Requisitions.SubmittedPr(db, x.applicant, x.m, p) == Ok(after)
    ensures SameGoodsAs(after, db)
  {
    hide RequisitionKeys, Requisitions.Recomputed, Requisitions.MaterialsOk;
  }

  lemma {:induction false} ApprovalKeepsGoods(db: Db, x: Purchase, p: nat, after: Db)
    requires Keyed(db) && Documented(db, p) && Requisitions.ApprovedPr(db, x.approver, x.m, p, 2) == Ok(after)
    ensures SameGoodsAs(after, db)
  {
    hide RequisitionKeys, Requisitions.Recomputed, Requisitions.LinesStillOk;
  }

  lemma {:induction false} WorkflowKeepsGoods(x: Purchase, p: nat, c: Course)
    requires Keyed(c.created) && Requisitions.SubmittedPr(c.created, x.applicant, x.m, p) == Ok(c.submitted)
    requires Keyed(c.submitted) && Requisitions.ApprovedPr(c.submitted, x.approver, x.m, p, 2) == Ok(c.approved)
    requires Valid(c.created) && Valid(c.submitted) && p < |c.created.prs|
    ensures SameGoodsAs(c.approved, c.created)
  {
    hide Valid, Keyed, Requisitions.SubmittedPr, Requisitions.ApprovedPr, Documented;
    ValidIsDocumented(c.created, p);
    SubmissionKeepsGoods(c.created, x, p, c.submitted);
    ValidIsDocumented(c.submitted, p);
    ApprovalKeepsGoods(c.submitted, x, p, c.approved);
  }

  lemma {:induction false} FiveOrders(approved: Db, ordered: Db)
    requires approved.prLines == map[0 := FIVE_ASKED] && |approved.prs| == 1 && approved.prs[0].items == [0]
    requires approved.poLines == [] && approved.pos == []
    requires Orders.CreatedPo(approved, CHIEF, FIVE.m, 5, AllLeft(approved, 0)) == Ok(ordered)
    ensures ordered.poLines == [FIVE_ORDERED]
    ensures ordered.receipts == approved.receipts && ordered.receiptLines == approved.receiptLines
    ensures ordered.ledger == approved.ledger && ordered.balances == approved.balances
  {
    var items := AllLeft(approved, 0);
    assert Remainders(approved.prLines, [0][1..]) == [];
    assert items == [ItemFor(approved.prLines, 0)];
    FiveIsFive();
    var start := Orders.Writing(approved.prLines, [], approved.sources, 0);
    var written := Orders.WriteItem(0, start, items[0]).value;
    assert written.poLines == [FIVE_ORDERED];
    assert items[1..] == [];
    assert Orders.WriteItems(0, written, items[1..]) == Ok(written);
  }

  lemma {:induction false} FiveLack(db: Db)
    requires db.poLines == [FIVE_ORDERED]
    ensures Rest(db, 0) == [Receipts.ReceiveRequest(0, 50_000)]
  {
    assert Outstanding(db.poLines, 0, 0) == [];
  }

  lemma {:induction false} FiveWritten(balances: map<Key, Balance>, w: Receipts.Receiving)
    requires Receipts.ReceiveLines(balances, 9, 0, Receipts.Receiving([FIVE_ORDERED], [], []),
                                   [Receipts.ReceiveRequest(0, 50_000)]) == Ok(w)
    ensures w.lines == [FIVE_RECEIVED]
  {
    var x := Receipts.ReceiveRequest(0, 50_000);
    var start := Receipts.Receiving([FIVE_ORDERED], [], []);
    assert [x][1..] == [];
    FiveIsFive();
    Receipts.ReceiveLineWrites(balances, 9, 0, start, x);
  }

  lemma {:induction false} FiveArrive(confirmed: Db, delivered: Db)
    requires confirmed.poLines == [FIVE_ORDERED] && confirmed.receipts == [] && confirmed.receiptLines == []
    requires Receipts.CreatedReceipt(confirmed, FIVE.m, 0, 9, Rest(confirmed, 0)) == Ok(delivered)
    ensures delivered.receipts == [Receipt(0, 9, Posted)] && delivered.receiptLines == [FIVE_RECEIVED]
  {
    hide Receipts.CreatedReceipt, Receipts.ReceiveLines, Rest, Receipts.LockAndApply, Receipts.Ordered;
    ReceiptRules.CreatedReceiptIs(confirmed, FIVE.m, 0, 9, Rest(confirmed, 0), delivered);
    RestInOrder(confirmed, 0);
    FiveLack(confirmed);
    FiveWritten(confirmed.balances, Receipts.ReceiveGoods(confirmed, 9, Rest(confirmed, 0)).value.w);
  }

  // The tables hold the five pieces, and nothing else was ever received.
  predicate HoldsFive(db: Db) {
    db.receipts == [Receipt(0, 9, Posted)] && db.receiptLines == [FIVE_RECEIVED]
  }

  lemma {:induction false} FiveConfirm(ordered: Db, confirmed: Db)
    requires Orders.ConfirmedPo(ordered, CHIEF, 0, 1) == Ok(confirmed)
    ensures confirmed.poLines == ordered.poLines && confirmed.receipts == ordered.receipts
    ensures confirmed.receiptLines == ordered.receiptLines && confirmed.ledger == ordered.ledger
  {
  }

  lemma {:induction false} FiveCourse(c: Course)
    requires GetsApproved(EMPTY, FIVE, 0, c) && GetsDelivered(FIVE, 0, 0, c)
    requires Valid(c.created) && Valid(c.submitted)
    ensures HoldsFive(c.delivered)
    ensures c.confirmed.ledger == [] && c.confirmed.poLines == [FIVE_ORDERED]
  {
    hide Valid, Keyed, Requisitions.CreatedPr, Requisitions.SubmittedPr, Requisitions.ApprovedPr, Orders.CreatedPo,
         Orders.ConfirmedPo, Receipts.CreatedReceipt, Rest, AllLeft;
    FiveCreates(c.created);
    WorkflowKeepsGoods(FIVE, 0, c);
    FiveOrders(c.approved, c.ordered);
    FiveConfirm(c.ordered, c.confirmed);
    FiveArrive(c.confirmed, c.delivered);
  }

  lemma {:induction false} SumSingle<T>(x: T, f: T -> int)
    ensures Sum([x], f) == f(x)
  {
    SumSnoc([], x, f);
    assert [] + [x] == [x];
  }

  lemma {:induction false} LiveFive(db: Db)
    requires HoldsFive(db)
    ensures Sum(db.receiptLines, Live(db.receipts, Quantity, SOME_KEY)) == 50_000
    ensures Sum(db.receiptLines, Live(db.receipts, Amount, SOME_KEY)) == 500
  {
    hide Sum;
    SumSingle(FIVE_RECEIVED, Live(db.receipts, Quantity, SOME_KEY));
    SumSingle(FIVE_RECEIVED, Live(db.receipts, Amount, SOME_KEY));
  }

  lemma {:induction false} BroughtFive(db: Db, k: Key)
    requires HoldsFive(db)
    ensures Sum(db.receiptLines, Brought(db.receipts, 0, Quantity, k)) == if k == SOME_KEY then 50_000 else 0
    ensures Sum(db.receiptLines, Brought(db.receipts, 0, Amount, k)) == if k == SOME_KEY then 500 else 0
  {
    hide Sum;
    SumSingle(FIVE_RECEIVED, Brought(db.receipts, 0, Quantity, k));
    SumSingle(FIVE_RECEIVED, Brought(db.receipts, 0, Amount, k));
  }

  lemma {:induction false} FiveUnadjusted(c: Course)
    requires GetsDelivered(FIVE, 0, 0, c) && Valid(c.confirmed) && c.confirmed.ledger == []
    ensures Sum(c.delivered.ledger, Adjusted(Quantity, SOME_KEY)) == 0
    ensures Sum(c.delivered.ledger, Adjusted(Amount, SOME_KEY)) == 0
  {
    hide Valid, Rest, Receipts.CreatedReceipt, ReceiptRules.IsReceipt;
    var goods := Rest(c.confirmed, 0);
    ReceiptRules.CreatedReceiptIs(c.confirmed, FIVE.m, 0, 9, goods, c.delivered);
    ReceiptRowsByReceipt(c.confirmed, c.delivered, 0, 9, Receipts.Ordered(goods));
  }

  // Five pieces at 1.00 are worth 5.00.
  lemma {:induction false} FiveHeld() returns (calls: seq<Request>)
    ensures HoldsFive(Run(calls)) && BalanceOf(Run(calls).balances, SOME_KEY) == Balance(50_000, 500, 10_000)
  {
    hide Valid, GetsApproved, GetsDelivered, Completed, HoldsFive, Live;
    var c;
    assert Run([]) == EMPTY;
    calls, c := EveryPurchaseRuns([], FIVE);
    FiveStages(c);
    FiveCourse(c);
    FiveUnadjusted(c);
    LiveFive(c.delivered);
    BookIsLiveStock(c.delivered, SOME_KEY);
    HalfUpUnique(500_000_000, 50_000, 10_000);
  }

  lemma {:induction false} FiveStages(c: Course)
    requires GetsApproved(EMPTY, FIVE, 0, c) && GetsDelivered(FIVE, 0, 0, c)
    ensures Valid(c.created) && Valid(c.submitted) && Valid(c.confirmed)
  {
    hide Valid, Keyed, Requisitions.CreatedPr, Requisitions.SubmittedPr, Requisitions.ApprovedPr, Orders.CreatedPo,
         Orders.ConfirmedPo, Receipts.CreatedReceipt, Rest, AllLeft;
    assert Run([]) == EMPTY;
    PrCreationRuns([], FIVE, c.created);
    var calls := [] + [Request(CHIEF, FIVE.m, CreatePr(FIVE.lines))];
    PrSubmissionRuns(calls, FIVE, 0, c.submitted);
    calls := calls + [Request(CHIEF, FIVE.m, SubmitPr(0))];
    PrApprovalRuns(calls, FIVE, 0, c.approved);
    calls := calls + [Request(CHIEF, FIVE.m, ApprovePr(0, 2))];
    PoCreationRuns(calls, FIVE, AllLeft(c.approved, 0), c.ordered);
    calls := calls + [Request(CHIEF, FIVE.m, CreatePo(5, AllLeft(c.approved, 0)))];
    PoConfirmationRuns(calls, FIVE, 0, c.confirmed);
  }

  // ---------------------------------------------------------------------------------------------
  // Counted up, counted down, and reversed
  // ---------------------------------------------------------------------------------------------

  lemma {:induction false} RecountKeepsReceipts(db: Db, crew: Crew, warehouse: int, line: Counts.CountRequest,
          after: Db)
    requires Recount(db, crew, warehouse, line) == Ok(after)
    ensures after.receipts == db.receipts && after.receiptLines == db.receiptLines
  {
  }

  // Recounting the key that holds the five pieces, as a further stretch of the run.
  lemma {:induction false} RecountFive(past: seq<Request>, physical: int, rate: int) returns (calls: seq<Request>)
    requires HoldsFive(Run(past)) && 0 <= physical != BalanceOf(Run(past).balances, SOME_KEY).quantity && rate > 0
    requires var b := BalanceOf(Run(past).balances, SOME_KEY);
      physical < b.quantity ==> LineAmount(b.quantity - physical, b.average) <= b.total
    ensures HoldsFive(Run(calls))
    ensures var b, left := BalanceOf(Run(past).balances, SOME_KEY), BalanceOf(Run(calls).balances, SOME_KEY);
      && left.quantity == physical && left.average == NewAverage(left.total, physical)
      && left.total == b.total + if physical > b.quantity then LineAmount(physical - b.quantity, rate)
                                 else -LineAmount(b.quantity - physical, b.average)
  {
    hide Valid, Run, Recount, HoldsFive, LineAmount;
    var db, line := Run(past), Counts.CountRequest(7, physical, Some(rate));
    BookFits(db, SOME_KEY);
    RecountMoves(db, SOME_CREW, 9, line);
    var after := Recount(db, SOME_CREW, 9, line).value;
    RecountKeepsReceipts(db, SOME_CREW, 9, line, after);
    SameFive(db, after);
    calls := RecountRuns(past, SOME_CREW, 9, line, db, after);
  }

  lemma {:induction false} SameFive(db: Db, after: Db)
    requires HoldsFive(db) && after.receipts == db.receipts && after.receiptLines == db.receiptLines
    ensures HoldsFive(after)
  {
  }

  // Five more found at 3.00, and five of the ten lost again at the average of 2.00.
  lemma {:induction false} FiveAtTwo() returns (calls: seq<Request>)
    ensures HoldsFive(Run(calls)) && BalanceOf(Run(calls).balances, SOME_KEY) == Balance(50_000, 1000, 20_000)
  {
    hide Valid, Run, HoldsFive;
    calls := FiveHeld();
    HalfUpUnique(1_500_000_000, UNITS_PER_CENT, 1500);
    calls := RecountFive(calls, 100_000, 30_000);
    HalfUpUnique(2_000_000_000, 100_000, 20_000);
    HalfUpUnique(1_000_000_000, UNITS_PER_CENT, 1000);
    calls := RecountFive(calls, 50_000, 1);
    HalfUpUnique(1_000_000_000, 50_000, 20_000);
  }

  lemma {:induction false} ReversalRuns(past: seq<Request>, receipt: nat, after: Db)
    requires Stored(Run(past)) && Receipts.ReversedReceipt(Run(past), receipt) == Ok(after)
    ensures Run(past + [Request(CHIEF, FIVE.m, ReverseReceipt(receipt))]) == after
  {
    hide Valid, Stored, Receipts.ReversedReceipt;
    RunNext(past, Request(CHIEF, FIVE.m, ReverseReceipt(receipt)), after);
  }

  // Some run ends with stock whose rounded average is exact, so that a write-off would clear it; yet reversing the
  // receipt it came from succeeds and leaves an empty key worth 5.00.
  lemma {:induction false} ReversalLeavesFive() returns (calls: seq<Request>)
    ensures BalanceOf(Run(calls).balances, SOME_KEY) == Balance(50_000, 1000, 20_000)
    ensures WriteOffResidue(1000, 50_000) == 0
    ensures Stored(Run(calls)) && Receipts.ReversedReceipt(Run(calls), 0).Ok?
    ensures Run(calls + [Request(CHIEF, FIVE.m, ReverseReceipt(0))]) == Receipts.ReversedReceipt(Run(calls), 0).value
    ensures BalanceOf(Run(calls + [Request(CHIEF, FIVE.m, ReverseReceipt(0))]).balances, SOME_KEY) == Balance(0, 500, 0)
  {
    hide Valid, Run, RequisitionKeys, OrderKeys, BalanceChecks, Receipts.ReversedReceipt;
    calls := FiveAtTwo();
    var db := Run(calls);
    ValidIsStored(db);
    forall k ensures StillHolds(db, 0, k) {
      BroughtFive(db, k);
      BookFits(db, k);
    }
    ReversalSucceedsIff(db, 0);
    ReversalRuns(calls, 0, Receipts.ReversedReceipt(db, 0).value);
    ReversalLeaves(db, 0, Receipts.ReversedReceipt(db, 0).value, SOME_KEY);
    BroughtFive(db, SOME_KEY);
    WriteOffBound(1000, 50_000);
  }
}
