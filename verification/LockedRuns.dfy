/** Any interleaving of stock calls under locks is the sequence of the committed calls, in commit order. */
module LockedRuns {
  import opened Sorting
  import opened Tables
  import opened Inventory
  import opened LockProtocol
  import opened LockedPostings
  import opened LockedServices
  import opened LockedCounts
  import opened Validity
  import Counts
  import CountRules
  import LedgerRules
  import OrderRules
  import Receipts
  import ReceiptRules
  import RequisitionRules

  // ---------------------------------------------------------------------------------------------
  // The calls that move stock, and the transaction each of them is
  // ---------------------------------------------------------------------------------------------

  datatype StockCall =
    | Receive(m: Master, po: nat, warehouse: int, items: seq<Receipts.ReceiveRequest>)
    | Reverse(receipt: nat)
    | Approve(user: User, count: nat, overrideFlag: bool, overrideReason: bool)

  ghost function StockOutcome(db: Db, call: StockCall): Result<Db>
    requires Stored(db)
  {
    match call
    case Receive(m, po, warehouse, items) => Receipts.CreatedReceipt(db, m, po, warehouse, items)
    case Reverse(receipt) => Receipts.ReversedReceipt(db, receipt)
    case Approve(user, count, flag, reason) => Counts.ApprovedCount(db, user, count, flag, reason)
  }

  // The document waits for the call: what the call checks before it takes any balance lock.
  ghost predicate Standing(db: Db, call: StockCall)
    requires Stored(db)
  {
    match call
    case Receive(_, _, _, _) => StockOutcome(db, call).Ok?
    case Reverse(receipt) => receipt < |db.receipts| && db.receipts[receipt].status == Posted
    case Approve(user, count, flag, reason) =>
      && count < |db.counts| && db.counts[count].status == CountPending
      && Counts.MayPost(db.counts[count], user, flag, reason).Ok?
  }

  // The transaction that the call is on these tables.
  ghost function WorkAt(db: Db, call: StockCall): Work
    requires Valid(db) && Stored(db) && Standing(db, call)
  {
    match call
    case Receive(m, po, warehouse, items) =>
      var after := Receipts.CreatedReceipt(db, m, po, warehouse, items).value;
      ReceiptRunsAsWork(db, m, po, warehouse, items, after);
      DocumentWork(None, MovesOf(NewRows(db, after)))
    case Reverse(receipt) =>
      PostedIsReversible(db, receipt);
      ReversalWork(db, receipt)
    case Approve(_, count, _, _) => ApprovalWork(db, count)
  }

  // The row a call claims, if any.
  function ClaimFor(call: StockCall): Option<nat> {
    match call
    case Receive(_, _, _, _) => None
    case Reverse(receipt) => Some(ReceiptRow(receipt))
    case Approve(_, count, _, _) => Some(CountRow(count))
  }

  ghost predicate Belongs(db: Db, w: Work, call: StockCall)
    requires Valid(db) && Stored(db)
  {
    Standing(db, call) && w == WorkAt(db, call)
  }

  lemma {:induction false} WorkClaims(db: Db, w: Work, call: StockCall)
    requires Valid(db) && Stored(db) && Belongs(db, w, call)
    ensures w.claim == ClaimFor(call)
  {
    hide Valid, RequisitionKeys, OrderKeys, BalanceChecks, ReceiptKeys;
  }

  // The transaction refuses exactly when the service does, and otherwise leaves what the service leaves.
  lemma {:induction false} CallRunsAsWork(db: Db, w: Work, call: StockCall)
    requires Valid(db) && Stored(db) && Belongs(db, w, call)
    ensures StockOutcome(db, call).Ok? <==> w.plan(ViewOf(db, w)).Some?
    ensures StockOutcome(db, call).Ok? ==> RunsAs(db, StockOutcome(db, call).value, w)
  {
    hide Valid, RequisitionKeys, OrderKeys, BalanceChecks, ReceiptKeys, Receipts.CreatedReceipt,
         Receipts.ReversedReceipt, Counts.ApprovedCount, DocumentWork, ReversalWork, ApprovalWork;
    match call
    case Receive(m, po, warehouse, items) =>
      ReceiptRunsAsWork(db, m, po, warehouse, items, StockOutcome(db, call).value);
    case Reverse(receipt) => ReversalRunsAsWork(db, receipt);
    case Approve(user, count, flag, reason) => ApprovalRunsAsWork(db, user, count, flag, reason);
  }

  lemma {:induction false} StockCallKeepsValid(db: Db, call: StockCall, after: Db)
    requires Valid(db) && Stored(db) && StockOutcome(db, call) == Ok(after)
    ensures Valid(after) && Stored(after)
  {
    hide Valid, RequisitionKeys, OrderKeys, BalanceChecks, Receipts.CreatedReceipt, Receipts.ReversedReceipt,
         Counts.ApprovedCount, ReceiptRules.IsReceipt, ReceiptRules.IsReversal;
    match call {
      case Receive(m, po, warehouse, items) =>
        ReceiptRules.CreatedReceiptIs(db, m, po, warehouse, items, after);
        ReceiptKeepsValid(db, after, po, warehouse, Receipts.Ordered(items));
      case Reverse(receipt) =>
        ReceiptRules.ReversedReceiptIs(db, receipt, after);
        ReversalKeepsValid(db, after, receipt);
      case Approve(user, count, flag, reason) => ApprovedCountKeepsValid(db, user, count, flag, reason, after);
    }
    ValidIsStored(after);
  }

  // The calls one after the other; one that fails leaves the tables as they were.
  ghost function InOrder(db: Db, calls: seq<StockCall>): (after: Db)
    requires Valid(db) && Stored(db)
    ensures Valid(after) && Stored(after)
  {
    if calls == [] then db else
      var mid, call := InOrder(db, calls[..|calls| - 1]), calls[|calls| - 1];
      match StockOutcome(mid, call)
      case Ok(after) => StockCallKeepsValid(mid, call, after); after
      case Err(_) => mid
  }

  // ---------------------------------------------------------------------------------------------
  // Transactions in sequence are services in sequence
  // ---------------------------------------------------------------------------------------------

  ghost predicate SameStore(store: Store, db: Db) {
    forall k :: store(k) == StoreOf(db)(k)
  }

  lemma {:induction false} SerialStep(init: Store, works: seq<Work>, mid: Db, call: StockCall)
    requires works != [] && Valid(mid) && Stored(mid) && Belongs(mid, works[|works| - 1], call)
    requires SameStore(Serial(init, works[..|works| - 1]), mid)
    ensures SameStore(Serial(init, works),
                      match StockOutcome(mid, call) case Ok(after) => after case Err(_) => mid)
    ensures StockOutcome(mid, call).Ok? <==> PlannedStep(init, works, |works| - 1)
  {
    hide Valid, Stored, Belongs, StockOutcome, Standing, WithPosting;
    var before, w := Serial(init, works[..|works| - 1]), works[|works| - 1];
    CallRunsAsWork(mid, w, call);
    SameView(before, StoreOf(mid), w.keys);
    forall k ensures Serial(init, works)(k) == Alone(StoreOf(mid), w, k) {}
    forall k { OneSerial(StoreOf(mid), w, k); }
  }

  // Transaction j is the one its call is on the tables that the calls before it leave.
  ghost predicate PlacedAt(db: Db, works: seq<Work>, calls: seq<StockCall>, j: nat)
    requires Valid(db) && Stored(db) && j < |calls| == |works|
  {
    Belongs(InOrder(db, calls[..j]), works[j], calls[j])
  }

  ghost predicate SucceedsAt(db: Db, calls: seq<StockCall>, j: nat)
    requires Valid(db) && Stored(db) && j < |calls|
  {
    StockOutcome(InOrder(db, calls[..j]), calls[j]).Ok?
  }

  lemma {:induction false} InPrefix(db: Db, init: Store, works: seq<Work>, calls: seq<StockCall>, n: nat, j: nat)
    requires Valid(db) && Stored(db) && j < n <= |calls| == |works|
    ensures PlacedAt(db, works[..n], calls[..n], j) <==> PlacedAt(db, works, calls, j)
    ensures SucceedsAt(db, calls[..n], j) <==> SucceedsAt(db, calls, j)
    ensures PlannedStep(init, works[..n], j) <==> PlannedStep(init, works, j)
  {
    hide Valid, Stored, Belongs, StockOutcome, InOrder, Serial;
    assert calls[..n][..j] == calls[..j] && works[..n][..j] == works[..j];
  }

  lemma {:induction false} LastInOrder(db: Db, init: Store, works: seq<Work>, calls: seq<StockCall>)
    requires Valid(db) && Stored(db) && |calls| == |works| > 0
    requires PlacedAt(db, works, calls, |works| - 1)
    requires SameStore(Serial(init, works[..|works| - 1]), InOrder(db, calls[..|works| - 1]))
    ensures SameStore(Serial(init, works), InOrder(db, calls))
    ensures SucceedsAt(db, calls, |works| - 1) <==> PlannedStep(init, works, |works| - 1)
  {
    hide Valid, Stored, Belongs, StockOutcome, SameStore, Serial, PlannedStep;
    SerialStep(init, works, InOrder(db, calls[..|works| - 1]), calls[|works| - 1]);
  }

  // Whatever is committed in sequence is what the services leave in sequence, and each succeeds where it was planned.
  lemma {:induction false} SerialIsInOrder(db: Db, init: Store, works: seq<Work>, calls: seq<StockCall>)
    requires Valid(db) && Stored(db) && SameStore(init, db) && |calls| == |works|
    requires forall j :: 0 <= j < |works| ==> PlacedAt(db, works, calls, j)
    ensures SameStore(Serial(init, works), InOrder(db, calls))
    ensures forall j :: 0 <= j < |works| ==> (SucceedsAt(db, calls, j) <==> PlannedStep(init, works, j))
    decreases |works|
  {
    hide Valid, Stored, SameStore, PlacedAt, SucceedsAt, PlannedStep;
    if works != [] {
      var n := |works| - 1;
      forall j | 0 <= j < n ensures PlacedAt(db, works[..n], calls[..n], j) { InPrefix(db, init, works, calls, n, j); }
      SerialIsInOrder(db, init, works[..n], calls[..n]);
      LastInOrder(db, init, works, calls);
      forall j | 0 <= j < n ensures SucceedsAt(db, calls, j) <==> PlannedStep(init, works, j) {
        InPrefix(db, init, works, calls, n, j);
      }
    }
  }

  // ---------------------------------------------------------------------------------------------
  // A reversal or an approval stays the same transaction, whatever else happens to stock
  // ---------------------------------------------------------------------------------------------

  lemma {:induction false} PlaceAlike<T>(s: seq<T>, limit: int, f: T -> int, g: T -> int)
    requires SortedOn(s, f) && SortedOn(s, g) && forall x :: x in s ==> f(x) == g(x)
    ensures Place(s, limit, f) == Place(s, limit, g)
  {
    if s != [] && f(s[|s| - 1]) > limit { PlaceAlike(s[..|s| - 1], limit, f, g); }
  }

  lemma {:induction false} SortAlike<T>(s: seq<T>, f: T -> int, g: T -> int)
    requires forall x :: x in s ==> f(x) == g(x)
    ensures SortOn(s, f) == SortOn(s, g)
  {
    if s != [] {
      var n := |s| - 1;
      SortAlike(s[..n], f, g);
      forall x | x in SortOn(s[..n], f) ensures f(x) == g(x) { SortMembers(s[..n], f, x); }
      PlaceAlike(SortOn(s[..n], f), f(s[n]), f, g);
    }
  }

  lemma {:induction false} ChosenStays(lines: seq<ReceiptLine>, more: seq<ReceiptLine>, r: nat)
    requires forall i :: 0 <= i < |more| ==> more[i].receipt != r
    ensures Receipts.Chosen(lines + more, r) == Receipts.Chosen(lines, r)
  {
    if more == [] {
      assert lines + more == lines;
    } else {
      var n := |more| - 1;
      ChosenStays(lines, more[..n], r);
      assert (lines + more)[..|lines + more| - 1] == lines + more[..n];
    }
  }

  lemma {:induction false} LinesStay(lines: seq<ReceiptLine>, more: seq<ReceiptLine>, r: nat)
    requires forall i :: 0 <= i < |more| ==> more[i].receipt != r
    ensures Receipts.LinesOf(lines + more, r) == Receipts.LinesOf(lines, r)
  {
    ChosenStays(lines, more, r);
    SortAlike<nat>(Receipts.Chosen(lines, r), Receipts.PoLineOf(lines), Receipts.PoLineOf(lines + more));
  }

  // The stock tables only grew: rows were added to the ledger, lines of new receipts to the receipt lines.
  ghost predicate StockGrew(db: Db, after: Db) {
    && |db.ledger| <= |after.ledger| && after.ledger[..|db.ledger|] == db.ledger
    && |db.receiptLines| <= |after.receiptLines| && after.receiptLines[..|db.receiptLines|] == db.receiptLines
    && |db.receipts| <= |after.receipts|
    && forall i :: |db.receiptLines| <= i < |after.receiptLines| ==> after.receiptLines[i].receipt >= |db.receipts|
  }

  lemma {:induction false} SameOriginal(db: Db, after: Db, r: nat, n: nat, rows: seq<Txn>, rows2: seq<Txn>, i: nat)
    requires LedgerRules.ImageFits(after.receipts, after.receiptLines, after.counts, after.ledger)
    requires StockGrew(db, after)
    requires r < |db.receipts| && after.receipts[r] == db.receipts[r] && n < |db.receiptLines|
    requires i < |rows| == |rows2|
    requires LedgerRules.RowUndoes(db, r, n, rows, i) && LedgerRules.RowUndoes(after, r, n, rows2, i)
    ensures MoveOf(rows2[i]) == MoveOf(rows[i])
  {
    var a, b := rows[i].reversed.value, rows2[i].reversed.value;
    assert after.ledger[..|db.ledger|][a] == after.ledger[a];
    assert after.receiptLines[..|db.receiptLines|][n] == after.receiptLines[n];
    assert after.ledger[a].source == after.ledger[b].source;
  }

  lemma {:induction false} ReversalWorkStays(db: Db, after: Db, r: nat)
    requires LedgerRules.ReversibleIn(db, r) && LedgerRules.ReversibleIn(after, r)
    requires StockGrew(db, after) && after.receipts[r] == db.receipts[r]
    ensures ReversalWork(after, r) == ReversalWork(db, r)
  {
    hide LedgerRules.RowUndoes, LedgerRules.UndoRows;
    var ns := Receipts.LinesOf(db.receiptLines, r);
    var rows, rows2 := LedgerRules.UndoRows(db, r), LedgerRules.UndoRows(after, r);
    assert after.receiptLines == db.receiptLines + after.receiptLines[|db.receiptLines|..];
    LinesStay(db.receiptLines, after.receiptLines[|db.receiptLines|..], r);
    LedgerRules.UndoRowsReady(db, r);
    LedgerRules.UndoRowsReady(after, r);
    forall i | 0 <= i < |rows| ensures MoveOf(rows2[i]) == MoveOf(rows[i]) {
      SameOriginal(db, after, r, ns[i], rows, rows2, i);
    }
    assert MovesOf(rows2) == MovesOf(rows);
  }

  lemma {:induction false} AdjustmentsStay(ledger: seq<Txn>, ledger2: seq<Txn>, warehouse: int, doc: nat,
          items: seq<CountItem>)
    requires |ledger| <= |ledger2| && ledger2[..|ledger|] == ledger
    requires forall n :: 0 <= n < |items| ==> items[n].watermark <= |ledger|
    ensures AdjustmentsOf(ledger2, warehouse, doc, items) == AdjustmentsOf(ledger, warehouse, doc, items)
  {
    if items != [] {
      var n := |items| - 1;
      AdjustmentsStay(ledger, ledger2, warehouse, doc, items[..n]);
      assert ledger2[..items[n].watermark] == ledger2[..|ledger|][..items[n].watermark];
    }
  }

  lemma {:induction false} ApprovalWorkStays(db: Db, after: Db, doc: nat)
    requires StockGrew(db, after) && doc < |db.counts| && doc < |after.counts| && after.counts[doc] == db.counts[doc]
    requires CountRules.CountFits(db.ledger, db.counts[doc])
    ensures ApprovalWork(after, doc) == ApprovalWork(db, doc)
  {
    var c := db.counts[doc];
    forall n | 0 <= n < |c.items| ensures c.items[n].watermark <= |db.ledger| {
      assert CountRules.ItemFits(db.ledger, c.warehouse, c.items[n]);
    }
    AdjustmentsStay(db.ledger, after.ledger, c.warehouse, doc, c.items);
  }

  // ---------------------------------------------------------------------------------------------
  // What each call leaves alone
  // ---------------------------------------------------------------------------------------------

  // Every receipt and every count but the one the call works on stays as it is.
  ghost predicate OthersStay(db: Db, after: Db, call: StockCall) {
    && StockGrew(db, after) && |after.counts| == |db.counts|
    && (forall r :: 0 <= r < |db.receipts| && call != Reverse(r) ==> after.receipts[r] == db.receipts[r])
    && (forall c :: 0 <= c < |db.counts| && !(call.Approve? && call.count == c) ==> after.counts[c] == db.counts[c])
  }

  lemma {:induction false} ReceiptLeavesOthers(db: Db, after: Db, po: nat, warehouse: int,
          todo: seq<Receipts.ReceiveRequest>, call: StockCall)
    requires ReceiptRules.ReceiptsFit(db.pos, db.poLines, db.receipts, db.receiptLines) && call.Receive?
    requires ReceiptRules.IsReceipt(db, after, po, warehouse, todo)
    ensures OthersStay(db, after, call)
  {
    hide ReceiptRules.ReceiptsFit, ReceiptRules.TodoFits, Receipts.ReceiveGoods;
    ReceiptRules.ReceiptEffect(db, after, po, warehouse, todo);
  }

  lemma {:induction false} ReceiveLeavesOthers(db: Db, call: StockCall, after: Db)
    requires Valid(db) && Stored(db) && call.Receive? && StockOutcome(db, call) == Ok(after)
    ensures OthersStay(db, after, call)
  {
    hide RequisitionRules.RequisitionsOk, OrderRules.OrdersOk, ReceiptRules.ReceiptsFit, StockOk, LedgerRules.ImageFits,
         CountRules.CountsFit, RequisitionKeys, OrderKeys, BalanceChecks, ReceiptKeys, Receipts.CreatedReceipt,
         ReceiptRules.IsReceipt, OthersStay;
    ReceiptRules.CreatedReceiptIs(db, call.m, call.po, call.warehouse, call.items, after);
    ReceiptLeavesOthers(db, after, call.po, call.warehouse, Receipts.Ordered(call.items), call);
  }

  lemma {:induction false} ReverseLeavesOthers(db: Db, call: StockCall, after: Db)
    requires Valid(db) && Stored(db) && call.Reverse? && StockOutcome(db, call) == Ok(after)
    ensures OthersStay(db, after, call)
  {
    hide Valid, RequisitionKeys, OrderKeys, BalanceChecks, ReceiptKeys;
    ReceiptRules.ReversedReceiptIs(db, call.receipt, after);
  }

  lemma {:induction false} ApproveLeavesOthers(db: Db, call: StockCall, after: Db)
    requires Valid(db) && Stored(db) && call.Approve? && StockOutcome(db, call) == Ok(after)
    ensures OthersStay(db, after, call)
  {
    hide Valid, RequisitionKeys, OrderKeys, BalanceChecks, ReceiptKeys;
  }

  lemma {:induction false} CallLeavesOthers(db: Db, call: StockCall, after: Db)
    requires Valid(db) && Stored(db) && StockOutcome(db, call) == Ok(after)
    ensures OthersStay(db, after, call)
  {
    hide Valid, Stored, StockOutcome, OthersStay;
    match call
    case Receive(_, _, _, _) => ReceiveLeavesOthers(db, call, after);
    case Reverse(_) => ReverseLeavesOthers(db, call, after);
    case Approve(_, _, _, _) => ApproveLeavesOthers(db, call, after);
  }

  // So a reversal or an approval is still the same transaction after any call that claims another document.
  lemma {:induction false} Undisturbed(db: Db, other: StockCall, after: Db, w: Work, call: StockCall)
    requires Valid(db) && Stored(db) && Belongs(db, w, call) && !call.Receive?
    requires StockOutcome(db, other) == Ok(after) && ClaimFor(other) != ClaimFor(call)
    ensures Valid(after) && Stored(after) && Belongs(after, w, call)
  {
    hide RequisitionRules.RequisitionsOk, OrderRules.OrdersOk, RequisitionKeys, OrderKeys, BalanceChecks, ReceiptKeys,
         Receipts.CreatedReceipt, Receipts.ReversedReceipt, Counts.ApprovedCount, ReversalWork, ApprovalWork;
    StockCallKeepsValid(db, other, after);
    CallLeavesOthers(db, other, after);
    if call.Reverse? {
      PostedIsReversible(db, call.receipt);
      PostedIsReversible(after, call.receipt);
      ReversalWorkStays(db, after, call.receipt);
    } else {
      assert CountRules.CountFits(db.ledger, db.counts[call.count]);
      ApprovalWorkStays(db, after, call.count);
    }
  }

  // ---------------------------------------------------------------------------------------------
  // Schedules
  // ---------------------------------------------------------------------------------------------

  lemma {:induction false} WorksNeverChange(run: seq<State>, i: nat)
    requires Schedule(run) && i < |run|
    ensures |run[i].processes| == |run[0].processes|
    ensures forall t :: 0 <= t < |run[i].processes| ==> run[i].processes[t].work == run[0].processes[t].work
  {
    if i > 0 {
      WorksNeverChange(run, i - 1);
      assert Next(run[i - 1], run[i - 1 + 1]);
      StepKeepsWorks(run[i - 1], run[i]);
    }
  }

  lemma {:induction false} StepKeepsWorks(s: State, s2: State)
    requires Next(s, s2)
    ensures |s2.processes| == |s.processes|
    ensures forall t :: 0 <= t < |s.processes| ==> s2.processes[t].work == s.processes[t].work
  {
  }

  // The calls of the committed transactions, in commit order.
  function CallsOf(s: State, calls: seq<StockCall>): (r: seq<StockCall>)
    requires forall j :: 0 <= j < |s.order| ==> s.order[j] < |calls|
    ensures |r| == |s.order| && forall j :: 0 <= j < |r| ==> r[j] == calls[s.order[j]]
  {
    seq(|s.order|, j requires 0 <= j < |s.order| => calls[s.order[j]])
  }

  // Each transaction was started for its call on the tables `db`. A receipt takes its ids and its place on its order
  // when it commits, so of a receipt nothing is asked here.
  ghost predicate StartedOn(db: Db, s: State, calls: seq<StockCall>)
    requires Valid(db) && Stored(db)
  {
    && |calls| == |s.processes|
    && forall t :: 0 <= t < |calls| && !calls[t].Receive? ==> Belongs(db, s.processes[t].work, calls[t])
  }

  // Committed receipts were accepted by their orders: each is the transaction of its call where it committed.
  ghost predicate ReceiptsPlaced(db: Db, works: seq<Work>, calls: seq<StockCall>)
    requires Valid(db) && Stored(db) && |calls| == |works|
  {
    forall j :: 0 <= j < |calls| && calls[j].Receive? ==> PlacedAt(db, works, calls, j)
  }

  // No two committed calls claim the same document.
  predicate ClaimsDiffer(calls: seq<StockCall>) {
    forall i, j :: 0 <= i < j < |calls| && !calls[j].Receive? ==> ClaimFor(calls[i]) != ClaimFor(calls[j])
  }

  // What a reversal or an approval was started as, it still is after the calls that committed before it.
  lemma {:induction false} StillBelongs(db: Db, w: Work, calls: seq<StockCall>, m: nat, j: nat)
    requires Valid(db) && Stored(db) && m <= j < |calls| && ClaimsDiffer(calls)
    requires !calls[j].Receive? && Belongs(db, w, calls[j])
    ensures Belongs(InOrder(db, calls[..m]), w, calls[j])
    decreases m
  {
    hide Valid, Stored, Belongs, StockOutcome, ClaimFor;
    if m == 0 {
      assert calls[..0] == [];
    } else {
      StillBelongs(db, w, calls, m - 1, j);
      assert calls[..m][..m - 1] == calls[..m - 1];
      var mid := InOrder(db, calls[..m - 1]);
      if StockOutcome(mid, calls[m - 1]).Ok? {
        Undisturbed(mid, calls[m - 1], StockOutcome(mid, calls[m - 1]).value, w, calls[j]);
      }
    }
  }

  lemma {:induction false} CommittedClaimsDiffer(run: seq<State>, i: nat, db: Db, calls: seq<StockCall>)
    requires Valid(db) && Stored(db) && Schedule(run) && i < |run| && StartedOn(db, run[0], calls)
    requires OrderFits(run[i]) && |run[i].processes| == |run[0].processes|
    requires forall t :: 0 <= t < |run[i].processes| ==> run[i].processes[t].work == run[0].processes[t].work
    requires forall t :: 0 <= t < |calls| && calls[t].Receive? ==> run[0].processes[t].work.claim == None
    ensures ClaimsDiffer(CallsOf(run[i], calls))
  {
    hide Valid, Stored, Belongs, Schedule;
    var works, done := WorksOf(run[i]), CallsOf(run[i], calls);
    forall t | 0 <= t < |calls| ensures run[0].processes[t].work.claim == ClaimFor(calls[t]) {
      if !calls[t].Receive? { WorkClaims(db, run[0].processes[t].work, calls[t]); }
    }
    forall a, b | 0 <= a < b < |done| && !done[b].Receive? ensures ClaimFor(done[a]) != ClaimFor(done[b]) {
      ClaimedOnce(run, i, a, b);
      assert works[a] == run[i].processes[run[i].order[a]].work && works[b] == run[i].processes[run[i].order[b]].work;
    }
  }

  // At any moment of any schedule of receipts, reversals and count approvals that starts on the tables of a reachable
  // state: every committed call would have succeeded as a service call at its place in commit order, and every key that
  // is not being posted is as those service calls, one after the other, leave it.
  lemma {:induction false} ScheduleIsServices(run: seq<State>, i: nat, db: Db, calls: seq<StockCall>)
    requires Valid(db) && Stored(db) && Schedule(run) && i < |run|
    requires SameStore(run[0].store, db) && StartedOn(db, run[0], calls)
    requires forall t :: 0 <= t < |calls| && calls[t].Receive? ==> run[0].processes[t].work.claim == None
    requires OrderFits(run[i]) && |run[i].processes| == |calls|
    requires ReceiptsPlaced(db, WorksOf(run[i]), CallsOf(run[i], calls))
    ensures var done := CallsOf(run[i], calls);
      && (forall j :: 0 <= j < |done| ==> SucceedsAt(db, done, j))
      && (forall k :: Quiet(run[i], k) ==> run[i].store(k) == StoreOf(InOrder(db, done))(k))
  {
    hide Valid, Stored, Belongs, Schedule, SameStore, Inv, InOrder;
    WorksNeverChange(run, i);
    CommittedClaimsDiffer(run, i, db, calls);
    var works, done := WorksOf(run[i]), CallsOf(run[i], calls);
    forall j | 0 <= j < |works| ensures PlacedAt(db, works, done, j) {
      if !done[j].Receive? { StillBelongs(db, works[j], done, j, j); }
    }
    SerialIsInOrder(db, run[0].store, works, done);
    ScheduleKeepsPlanned(run, i);
    forall j | 0 <= j < |done| ensures SucceedsAt(db, done, j) { assert PlannedStep(run[0].store, works, j); }
    Serializable(run, i);
    SameEverywhere(run[i], Serial(run[0].store, works), InOrder(db, done));
  }

  lemma {:induction false} SameEverywhere(s: State, store: Store, db: Db)
    requires SameStore(store, db) && forall k :: Quiet(s, k) ==> s.store(k) == store(k)
    ensures forall k :: Quiet(s, k) ==> s.store(k) == StoreOf(db)(k)
  {
  }
}
