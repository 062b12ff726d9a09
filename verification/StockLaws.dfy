/** Stock in every reachable state: reversals undo by original amounts, whatever happened in between. */
module StockLaws {
  import opened Sums
  import opened Money
  import opened Sorting
  import opened Tables
  import opened Acceptance
  import opened Inventory
  import opened LedgerRules
  import opened Validity
  import Orders
  import OrderRules
  import ReceiptRules
  import Receipts

  // ---------------------------------------------------------------------------------------------
  // The stock is the live receipt lines plus the adjustments
  // ---------------------------------------------------------------------------------------------

  // Everything below holds for quantities and for amounts alike.
  datatype Measure = Quantity | Amount

  function Of(m: Measure, t: Txn): int {
    if m == Quantity then t.quantity else t.amount
  }

  function OfLine(m: Measure, l: ReceiptLine): int {
    if m == Quantity then l.quantity else l.amount
  }

  function On(m: Measure, k: Key): Txn -> int {
    if m == Quantity then QuantityOn(k) else AmountOn(k)
  }

  predicate ByReceipt(t: Txn) {
    !t.source.CountSource?
  }

  function Purchased(m: Measure, k: Key): Txn -> int {
    (t: Txn) => if t.key == k && ByReceipt(t) then Of(m, t) else 0
  }

  function Adjusted(m: Measure, k: Key): Txn -> int {
    (t: Txn) => if t.key == k && !ByReceipt(t) then Of(m, t) else 0
  }

  predicate IsLive(receipts: seq<Receipt>, k: Key, l: ReceiptLine) {
    && l.receipt < |receipts| && receipts[l.receipt].status == Posted
    && k == Key(receipts[l.receipt].warehouse, l.material)
  }

  // What the lines of receipts that are not reversed brought in.
  function Live(receipts: seq<Receipt>, m: Measure, k: Key): ReceiptLine -> int {
    (l: ReceiptLine) => if IsLive(receipts, k, l) then OfLine(m, l) else 0
  }

  function SourceOf(l: ReceiptLine, n: nat, reversal: bool): TxnSource {
    if reversal then ReversalSource(l.receipt, n) else ReceiptSource(l.receipt, n)
  }

  // The cells of the table that is counted by ledger rows and by receipt lines.
  function Posting(lines: seq<ReceiptLine>, m: Measure, k: Key, reversal: bool): (int, Txn) -> int {
    (n: int, t: Txn) =>
      if t.key == k && 0 <= n < |lines| && t.source == SourceOf(lines[n], n, reversal) then Of(m, t) else 0
  }

  function PurchasedAs(m: Measure, k: Key, reversal: bool): Txn -> int {
    (t: Txn) => if t.key == k && ByReceipt(t) && t.source.ReversalSource? == reversal then Of(m, t) else 0
  }

  // Each ledger row belongs to one receipt line.
  lemma {:induction false} RowBelongs(db: Db, m: Measure, k: Key, reversal: bool, i: nat)
    requires ImageFits(db.receipts, db.receiptLines, db.counts, db.ledger) && i < |db.ledger|
    ensures ColumnSums<int, Txn>(Posting(db.receiptLines, m, k, reversal), Positions(|db.receiptLines|))(db.ledger[i])
         == PurchasedAs(m, k, reversal)(db.ledger[i])
  {
    var t, ns := db.ledger[i], Positions(|db.receiptLines|);
    assert RowFits(db.receipts, db.receiptLines, db.counts, db.ledger, i);
    var f := Against<int, Txn>(Posting(db.receiptLines, m, k, reversal), t);
    if ByReceipt(t) {
      SumOnly(ns, t.source.line, f);
    } else {
      SumZero(ns, f);
    }
  }

  // What the rows of kind `reversal` of line n add up to.
  function RowValue(db: Db, m: Measure, k: Key, reversal: bool, n: nat): int
    requires n < |db.receiptLines| && db.receiptLines[n].receipt < |db.receipts|
  {
    var l := db.receiptLines[n];
    var doc := db.receipts[l.receipt];
    if k != Key(doc.warehouse, l.material) then 0
    else if !reversal then OfLine(m, l)
    else if doc.status == Reversed then -OfLine(m, l) else 0
  }

  lemma {:induction false} LineHasRow(db: Db, m: Measure, k: Key, reversal: bool, n: nat)
    requires ImageFits(db.receipts, db.receiptLines, db.counts, db.ledger)
    requires n < |db.receiptLines| && db.receiptLines[n].receipt < |db.receipts|
    ensures RowSums<int, Txn>(Posting(db.receiptLines, m, k, reversal), db.ledger)(n) == RowValue(db, m, k, reversal, n)
  {
    var f := Given<int, Txn>(Posting(db.receiptLines, m, k, reversal), n);
    var source := SourceOf(db.receiptLines[n], n, reversal);
    assert LineRecorded(db.receipts, db.ledger, db.receiptLines, n);
    if Recorded(db.ledger, source) {
      var i :| 0 <= i < |db.ledger| && db.ledger[i].source == source;
      assert RowFits(db.receipts, db.receiptLines, db.counts, db.ledger, i);
      forall j | 0 <= j < |db.ledger| && j != i ensures f(db.ledger[j]) == 0 {
        assert db.ledger[if i < j then i else j].source != db.ledger[if i < j then j else i].source;
      }
      SumOnly(db.ledger, i, f);
    } else {
      SumZero(db.ledger, f);
    }
  }

  function LineValue(db: Db, m: Measure, k: Key, reversal: bool): int -> int {
    (n: int) =>
      if 0 <= n < |db.receiptLines| && db.receiptLines[n].receipt < |db.receipts| then RowValue(db, m, k, reversal, n)
      else 0
  }

  lemma {:induction false} PurchasedAsLines(db: Db, m: Measure, k: Key, reversal: bool)
    requires ImageFits(db.receipts, db.receiptLines, db.counts, db.ledger)
    requires forall n :: 0 <= n < |db.receiptLines| ==> db.receiptLines[n].receipt < |db.receipts|
    ensures Sum(db.ledger, PurchasedAs(m, k, reversal))
         == Sum(Positions(|db.receiptLines|), LineValue(db, m, k, reversal))
  {
    var ns, f := Positions(|db.receiptLines|), Posting(db.receiptLines, m, k, reversal);
    DoubleCount<int, Txn>(ns, db.ledger, f);
    forall n | n in ns ensures RowSums<int, Txn>(f, db.ledger)(n) == LineValue(db, m, k, reversal)(n) {
      LineHasRow(db, m, k, reversal, n);
    }
    SumEqual(ns, RowSums<int, Txn>(f, db.ledger), LineValue(db, m, k, reversal));
    forall t | t in db.ledger ensures ColumnSums<int, Txn>(f, ns)(t) == PurchasedAs(m, k, reversal)(t) {
      var i :| 0 <= i < |db.ledger| && db.ledger[i] == t;
      RowBelongs(db, m, k, reversal, i);
    }
    SumEqual(db.ledger, ColumnSums<int, Txn>(f, ns), PurchasedAs(m, k, reversal));
  }

  // Net purchases in the ledger are exactly the live receipt lines.
  lemma {:induction false} NetPurchases(db: Db, m: Measure, k: Key)
    requires Valid(db)
    ensures Sum(db.ledger, Purchased(m, k)) == Sum(db.receiptLines, Live(db.receipts, m, k))
  {
    hide RequisitionRules.RequisitionsOk, OrderRules.OrdersOk, ReceiptRules.ReceiptsFit, StockOk, ImageFits,
         CountRules.CountsFit, Sum;
    ReceiptsInRange(db);
    PurchasedAsLines(db, m, k, false);
    PurchasedAsLines(db, m, k, true);
    SumSplit(db.ledger, Purchased(m, k), PurchasedAs(m, k, false), PurchasedAs(m, k, true));
    LiveLines(db, m, k);
  }

  lemma {:induction false} LiveIsRows(db: Db, m: Measure, k: Key, n: nat)
    requires n < |db.receiptLines| && db.receiptLines[n].receipt < |db.receipts|
    ensures Live(db.receipts, m, k)(db.receiptLines[n]) == LineValue(db, m, k, false)(n) + LineValue(db, m, k, true)(n)
  {
  }

  function LiveAt(db: Db, m: Measure, k: Key): int -> int {
    (n: int) => if 0 <= n < |db.receiptLines| then Live(db.receipts, m, k)(db.receiptLines[n]) else 0
  }

  lemma {:induction false} ReceiptsInRange(db: Db)
    requires ReceiptRules.ReceiptsFit(db.pos, db.poLines, db.receipts, db.receiptLines)
    ensures forall n :: 0 <= n < |db.receiptLines| ==> db.receiptLines[n].receipt < |db.receipts|
  {
    forall n | 0 <= n < |db.receiptLines| ensures db.receiptLines[n].receipt < |db.receipts| {
      assert ReceiptRules.ReceiptLineFits(db.poLines, db.receipts, db.receiptLines[n]);
    }
  }

  lemma {:induction false} LiveLines(db: Db, m: Measure, k: Key)
    requires forall n :: 0 <= n < |db.receiptLines| ==> db.receiptLines[n].receipt < |db.receipts|
    ensures Sum(db.receiptLines, Live(db.receipts, m, k))
         == Sum(Positions(|db.receiptLines|), LineValue(db, m, k, false))
            + Sum(Positions(|db.receiptLines|), LineValue(db, m, k, true))
  {
    var ns := Positions(|db.receiptLines|);
    forall n | n in ns ensures LiveAt(db, m, k)(n) == LineValue(db, m, k, false)(n) + LineValue(db, m, k, true)(n) {
      LiveIsRows(db, m, k, n);
    }
    SumSplit(ns, LiveAt(db, m, k), LineValue(db, m, k, false), LineValue(db, m, k, true));
    SumAlike(ns, db.receiptLines, LiveAt(db, m, k), Live(db.receipts, m, k));
  }

  // The book of every key: live receipt lines plus adjustments, and the average of the two totals.
  lemma {:induction false} BookIsLiveStock(db: Db, k: Key)
    requires Valid(db)
    ensures var b := BalanceOf(db.balances, k);
      && b.quantity == Sum(db.receiptLines, Live(db.receipts, Quantity, k)) + Sum(db.ledger, Adjusted(Quantity, k)) >= 0
      && b.total == Sum(db.receiptLines, Live(db.receipts, Amount, k)) + Sum(db.ledger, Adjusted(Amount, k)) >= 0
      && b.average == NewAverage(b.total, b.quantity)
  {
    hide RequisitionRules.RequisitionsOk, OrderRules.OrdersOk, ReceiptRules.ReceiptsFit, ImageFits,
         CountRules.CountsFit;
    NeverMoved(db.ledger, db.balances, k);
    NetPurchases(db, Quantity, k);
    NetPurchases(db, Amount, k);
    SumSplit(db.ledger, QuantityOn(k), Purchased(Quantity, k), Adjusted(Quantity, k));
    SumSplit(db.ledger, AmountOn(k), Purchased(Amount, k), Adjusted(Amount, k));
  }

  // ---------------------------------------------------------------------------------------------
  // When a reversal succeeds
  // ---------------------------------------------------------------------------------------------

  // What receipt r brought in on key k.
  function Brought(receipts: seq<Receipt>, r: nat, m: Measure, k: Key): ReceiptLine -> int
    requires r < |receipts|
  {
    (l: ReceiptLine) => if l.receipt == r && Key(receipts[r].warehouse, l.material) == k then OfLine(m, l) else 0
  }

  function BroughtAt(db: Db, r: nat, m: Measure, k: Key): nat -> int
    requires r < |db.receipts|
  {
    (n: nat) => if n < |db.receiptLines| then Brought(db.receipts, r, m, k)(db.receiptLines[n]) else 0
  }

  lemma {:induction false} UndoneRowTakesBack(db: Db, r: nat, n: nat, rows: seq<Txn>, i: nat, m: Measure, k: Key)
    requires r < |db.receipts| && n < |db.receiptLines| && db.receiptLines[n].receipt == r
    requires i < |rows| && RowUndoes(db, r, n, rows, i)
    ensures On(m, k)(rows[i]) == Minus<nat>(BroughtAt(db, r, m, k))(n)
  {
    var l, key := db.receiptLines[n], Key(db.receipts[r].warehouse, db.receiptLines[n].material);
    assert rows[i].key == key && Of(m, rows[i]) == -OfLine(m, l);
    assert Brought(db.receipts, r, m, k)(l) == if key == k then OfLine(m, l) else 0;
    assert BroughtAt(db, r, m, k)(n) == Brought(db.receipts, r, m, k)(l);
  }

  lemma {:induction false} RowsTakeBack(db: Db, r: nat, ns: seq<nat>, rows: seq<Txn>, m: Measure, k: Key)
    requires r < |db.receipts| && ns == Receipts.LinesOf(db.receiptLines, r) && |rows| == |ns|
    requires forall i :: 0 <= i < |rows| ==>
      ns[i] < |db.receiptLines| && db.receiptLines[ns[i]].receipt == r && RowUndoes(db, r, ns[i], rows, i)
    ensures Sum(rows, On(m, k)) == -Sum(db.receiptLines, Brought(db.receipts, r, m, k))
  {
    forall i | 0 <= i < |rows| ensures On(m, k)(rows[i]) == Minus<nat>(BroughtAt(db, r, m, k))(ns[i]) {
      UndoneRowTakesBack(db, r, ns[i], rows, i, m, k);
    }
    SumAlike<Txn, nat>(rows, ns, On(m, k), Minus<nat>(BroughtAt(db, r, m, k)));
    SumMinus<nat>(ns, BroughtAt(db, r, m, k));
    ReceiptRules.LinesOfSum(db.receiptLines, r, BroughtAt(db, r, m, k), Brought(db.receipts, r, m, k));
  }

  // The rows of a reversal take back exactly what the receipt brought in, at the original amounts.
  lemma {:induction false} UndoRowsTakeBack(db: Db, r: nat, m: Measure, k: Key)
    requires ReversibleIn(db, r)
    ensures Sum(UndoRows(db, r), On(m, k)) == -Sum(db.receiptLines, Brought(db.receipts, r, m, k))
  {
    UndoRowsReady(db, r);
    Receipts.LinesOfMembers(db.receiptLines, r);
    RowsTakeBack(db, r, Receipts.LinesOf(db.receiptLines, r), UndoRows(db, r), m, k);
  }

  // Key k still holds everything the receipt brought in on it.
  predicate StillHolds(db: Db, r: nat, k: Key)
    requires r < |db.receipts|
  {
    && BalanceOf(db.balances, k).quantity >= Sum(db.receiptLines, Brought(db.receipts, r, Quantity, k))
    && BalanceOf(db.balances, k).total >= Sum(db.receiptLines, Brought(db.receipts, r, Amount, k))
  }

  lemma {:induction false} HeldIsCovered(db: Db, r: nat, k: Key)
    requires Valid(db) && ReversibleIn(db, r)
    ensures StillHolds(db, r, k) <==> CoveredOn(db.balances, UndoRows(db, r), k)
    ensures k !in KeysOf(UndoRows(db, r)) ==> StillHolds(db, r, k)
  {
    hide RequisitionRules.RequisitionsOk, OrderRules.OrdersOk, ReceiptRules.ReceiptsFit, CountRules.CountsFit, Sum;
    UndoRowsTakeBack(db, r, Quantity, k);
    UndoRowsTakeBack(db, r, Amount, k);
    NeverMoved(db.ledger, db.balances, k);
    if k !in KeysOf(UndoRows(db, r)) { NoRowsNoSum(UndoRows(db, r), k); }
  }

  lemma {:induction false} CoveredMeansHeld(db: Db, r: nat)
    requires Valid(db) && ReversibleIn(db, r)
    ensures Covered(db.balances, UndoRows(db, r)) <==> forall k :: StillHolds(db, r, k)
  {
    hide Valid, ReceiptRules.RowsFit, ImageFits, StillHolds, CoveredOn;
    var rows := UndoRows(db, r);
    forall k
      ensures StillHolds(db, r, k) <==> CoveredOn(db.balances, rows, k)
      ensures k !in KeysOf(rows) ==> StillHolds(db, r, k)
    {
      HeldIsCovered(db, r, k);
    }
    CoveredIs(db.balances, rows);
  }

  lemma {:induction false} CoveredIs(balances: map<Key, Balance>, rows: seq<Txn>)
    ensures Covered(balances, rows) <==> forall k :: k in KeysOf(rows) ==> CoveredOn(balances, rows, k)
  {
  }

  // In every reachable state, reverse_receipt succeeds exactly on a posted receipt whose keys still hold its goods.
  lemma {:induction false} ReversalSucceedsIff(db: Db, r: nat)
    requires Valid(db) && Stored(db)
    ensures Receipts.ReversedReceipt(db, r).Ok? <==>
      r < |db.receipts| && db.receipts[r].status == Posted && forall k :: StillHolds(db, r, k)
  {
    hide Valid, RequisitionKeys, OrderKeys, BalanceChecks, Covered, StillHolds;
    if r < |db.receipts| && db.receipts[r].status == Posted {
      PostedIsReversible(db, r);
      UndoGoodsPosts(db, r);
      CoveredMeansHeld(db, r);
    }
  }

  // What a reversal leaves on any key: the goods gone at their original amounts, whatever the key was worth by then.
  lemma {:induction false} ReversalLeaves(db: Db, r: nat, after: Db, k: Key)
    requires Valid(db) && Stored(db) && Receipts.ReversedReceipt(db, r) == Ok(after)
    ensures r < |db.receipts|
    ensures var was, left := BalanceOf(db.balances, k), BalanceOf(after.balances, k);
      && left.quantity == was.quantity - Sum(db.receiptLines, Brought(db.receipts, r, Quantity, k))
      && left.total == was.total - Sum(db.receiptLines, Brought(db.receipts, r, Amount, k))
      && left.average == NewAverage(left.total, left.quantity)
  {
    hide Valid, Covered, Sum, RequisitionKeys, OrderKeys, BalanceChecks;
    PostedIsReversible(db, r);
    UndoGoodsPosts(db, r);
    UndoRowsTakeBack(db, r, Quantity, k);
    UndoRowsTakeBack(db, r, Amount, k);
    AfterExactly(BalanceOf(db.balances, k), UndoRows(db, r), k);
    QuotientAverage(db, k);
  }

  lemma {:induction false} QuotientAverage(db: Db, k: Key)
    requires Valid(db)
    ensures var b := BalanceOf(db.balances, k); b.average == NewAverage(b.total, b.quantity)
  {
    NeverMoved(db.ledger, db.balances, k);
  }

  // So a key that a reversal empties ends worthless exactly when it was worth what the receipt had brought in on it.
  lemma {:induction false} EmptiedIsWorthlessIff(db: Db, r: nat, after: Db, k: Key)
    requires Valid(db) && Stored(db) && Receipts.ReversedReceipt(db, r) == Ok(after)
    requires BalanceOf(after.balances, k).quantity == 0
    ensures r < |db.receipts|
    ensures BalanceOf(after.balances, k) == NO_STOCK <==>
      BalanceOf(db.balances, k).total == Sum(db.receiptLines, Brought(db.receipts, r, Amount, k))
  {
    ReversalLeaves(db, r, after, k);
  }

  // The receipt's own goods are among the live ones.
  lemma {:induction false} BroughtIsLive(db: Db, r: nat, m: Measure, k: Key)
    requires Valid(db) && r < |db.receipts| && db.receipts[r].status == Posted
    ensures Sum(db.receiptLines, Brought(db.receipts, r, m, k)) <= Sum(db.receiptLines, Live(db.receipts, m, k))
  {
    hide RequisitionRules.RequisitionsOk, StockOk, ImageFits, CountRules.CountsFit, Sum, ReceiptRules.ReceiptFits,
         ReceiptRules.ReceivedFits, ReceiptRules.PoStatusFits, ReceiptRules.SameSlot, OrderRules.SourcesFit,
         OrderRules.OrderFits;
    forall l | l in db.receiptLines ensures Brought(db.receipts, r, m, k)(l) <= Live(db.receipts, m, k)(l) {
      var n :| 0 <= n < |db.receiptLines| && db.receiptLines[n] == l;
      assert ReceiptRules.ReceiptLineFits(db.poLines, db.receipts, db.receiptLines[n]);
    }
    SumAtMost(db.receiptLines, Brought(db.receipts, r, m, k), Live(db.receipts, m, k));
  }

  // No count ever took stock from key k.
  predicate NeverWrittenDown(ledger: seq<Txn>, k: Key) {
    forall i :: 0 <= i < |ledger| && ledger[i].kind == AdjustOut ==> ledger[i].key != k
  }

  lemma {:induction false} AdjustmentsOnlyAdd(db: Db, m: Measure, k: Key)
    requires Valid(db) && NeverWrittenDown(db.ledger, k)
    ensures Sum(db.ledger, Adjusted(m, k)) >= 0
  {
    forall t | t in db.ledger ensures Adjusted(m, k)(t) >= 0 {
      var i :| 0 <= i < |db.ledger| && db.ledger[i] == t;
      assert RowFits(db.receipts, db.receiptLines, db.counts, db.ledger, i) && RowReplays(db.ledger, i);
    }
    SumNonNegative(db.ledger, Adjusted(m, k));
  }

  // Every posted receipt stays reversible as long as no count took stock from its keys.
  lemma {:induction false} PostedStaysReversible(db: Db, r: nat)
    requires Valid(db) && Stored(db) && r < |db.receipts| && db.receipts[r].status == Posted
    requires forall n :: 0 <= n < |db.receiptLines| && db.receiptLines[n].receipt == r ==>
      NeverWrittenDown(db.ledger, Key(db.receipts[r].warehouse, db.receiptLines[n].material))
    ensures Receipts.ReversedReceipt(db, r).Ok?
  {
    forall k ensures StillHolds(db, r, k) {
      BookIsLiveStock(db, k);
      if NeverWrittenDown(db.ledger, k) {
        AdjustmentsOnlyAdd(db, Quantity, k);
        AdjustmentsOnlyAdd(db, Amount, k);
        BroughtIsLive(db, r, Quantity, k);
        BroughtIsLive(db, r, Amount, k);
      } else {
        forall l | l in db.receiptLines
          ensures Brought(db.receipts, r, Quantity, k)(l) == 0 && Brought(db.receipts, r, Amount, k)(l) == 0
        {
          var n :| 0 <= n < |db.receiptLines| && db.receiptLines[n] == l;
        }
        SumZero(db.receiptLines, Brought(db.receipts, r, Quantity, k));
        SumZero(db.receiptLines, Brought(db.receipts, r, Amount, k));
      }
    }
    ReversalSucceedsIff(db, r);
  }

  // ---------------------------------------------------------------------------------------------
  // History independence
  // ---------------------------------------------------------------------------------------------

  datatype Goods = Goods(quantity: int, amount: int)

  // The goods of the receipts that are not reversed, on key k.
  function LiveGoods(receipts: seq<Receipt>, rows: seq<ReceiptLine>, k: Key): seq<Goods> {
    if rows == [] then [] else
      var init, l := LiveGoods(receipts, rows[..|rows| - 1], k), rows[|rows| - 1];
      if IsLive(receipts, k, l) then init + [Goods(l.quantity, l.amount)] else init
  }

  function InGoods(m: Measure): Goods -> int {
    (g: Goods) => if m == Quantity then g.quantity else g.amount
  }

  lemma {:induction false} LiveGoodsSum(receipts: seq<Receipt>, rows: seq<ReceiptLine>, m: Measure, k: Key)
    ensures Sum(LiveGoods(receipts, rows, k), InGoods(m)) == Sum(rows, Live(receipts, m, k))
  {
    if rows != [] {
      var l := rows[|rows| - 1];
      LiveGoodsSum(receipts, rows[..|rows| - 1], m, k);
      SumSnoc(LiveGoods(receipts, rows[..|rows| - 1], k), Goods(l.quantity, l.amount), InGoods(m));
    }
  }

  lemma {:induction false} SameLiveSums(ra: seq<Receipt>, a: seq<ReceiptLine>, rb: seq<Receipt>, b: seq<ReceiptLine>,
          m: Measure, k: Key)
    requires multiset(LiveGoods(ra, a, k)) == multiset(LiveGoods(rb, b, k))
    ensures Sum(a, Live(ra, m, k)) == Sum(b, Live(rb, m, k))
  {
    LiveGoodsSum(ra, a, m, k);
    LiveGoodsSum(rb, b, m, k);
    SumAnyOrder(LiveGoods(ra, a, k), LiveGoods(rb, b, k), InGoods(m));
  }

  lemma {:induction false} SameSumsSameBook(a: Db, b: Db, k: Key)
    requires Valid(a) && Valid(b)
    requires Sum(a.receiptLines, Live(a.receipts, Quantity, k)) == Sum(b.receiptLines, Live(b.receipts, Quantity, k))
    requires Sum(a.receiptLines, Live(a.receipts, Amount, k)) == Sum(b.receiptLines, Live(b.receipts, Amount, k))
    requires Sum(a.ledger, Adjusted(Quantity, k)) == Sum(b.ledger, Adjusted(Quantity, k))
    requires Sum(a.ledger, Adjusted(Amount, k)) == Sum(b.ledger, Adjusted(Amount, k))
    ensures BalanceOf(a.balances, k) == BalanceOf(b.balances, k)
  {
    BookIsLiveStock(a, k);
    BookIsLiveStock(b, k);
  }

  // Two reachable states with the same live goods on a key, in whatever order and through whatever reversals they came
  // about, and with the same adjustments, agree on its quantity, its value and its average.
  lemma {:induction false} HistoryIndependent(a: Db, b: Db, k: Key)
    requires Valid(a) && Valid(b)
    requires multiset(LiveGoods(a.receipts, a.receiptLines, k)) == multiset(LiveGoods(b.receipts, b.receiptLines, k))
    requires Sum(a.ledger, Adjusted(Quantity, k)) == Sum(b.ledger, Adjusted(Quantity, k))
    requires Sum(a.ledger, Adjusted(Amount, k)) == Sum(b.ledger, Adjusted(Amount, k))
    ensures BalanceOf(a.balances, k) == BalanceOf(b.balances, k)
  {
    SameLiveSums(a.receipts, a.receiptLines, b.receipts, b.receiptLines, Quantity, k);
    SameLiveSums(a.receipts, a.receiptLines, b.receipts, b.receiptLines, Amount, k);
    SameSumsSameBook(a, b, k);
  }

  predicate NeverCounted(ledger: seq<Txn>, k: Key) {
    forall i :: 0 <= i < |ledger| && ledger[i].source.CountSource? ==> ledger[i].key != k
  }

  // As long as no count adjusted a key, an empty stock is worth nothing.
  lemma {:induction false} EmptyIsWorthless(db: Db, k: Key)
    requires Valid(db) && NeverCounted(db.ledger, k)
    requires BalanceOf(db.balances, k).quantity == 0
    ensures BalanceOf(db.balances, k) == NO_STOCK
  {
    hide RequisitionRules.RequisitionsOk, OrderRules.OrdersOk, StockOk, ImageFits, CountRules.CountsFit;
    BookIsLiveStock(db, k);
    SumZero(db.ledger, Adjusted(Quantity, k));
    SumZero(db.ledger, Adjusted(Amount, k));
    forall l | l in db.receiptLines ensures Live(db.receipts, Quantity, k)(l) >= 0 && l.quantity > 0 {
      var n :| 0 <= n < |db.receiptLines| && db.receiptLines[n] == l;
      assert ReceiptRules.ReceiptLineFits(db.poLines, db.receipts, db.receiptLines[n]);
    }
    forall l | l in db.receiptLines ensures Live(db.receipts, Amount, k)(l) == 0 {
      var n :| 0 <= n < |db.receiptLines| && db.receiptLines[n] == l;
      SumCovers(db.receiptLines, Live(db.receipts, Quantity, k), n);
    }
    SumZero(db.receiptLines, Live(db.receipts, Amount, k));
  }

  // ---------------------------------------------------------------------------------------------
  // Posting a receipt and reversing it
  // ---------------------------------------------------------------------------------------------

  // A new receipt adds exactly what it brought in; reversing it takes that out of the live goods again.
  lemma {:induction false} NewLinesAdd(receipts: seq<Receipt>, rows: seq<ReceiptLine>, doc: Receipt,
          tail: seq<ReceiptLine>, m: Measure, k: Key)
    requires forall i :: 0 <= i < |rows| ==> rows[i].receipt < |receipts|
    requires forall i :: 0 <= i < |tail| ==> tail[i].receipt == |receipts|
    requires doc.status == Posted
    ensures Sum(rows + tail, Live(receipts + [doc], m, k))
         == Sum(rows, Live(receipts, m, k)) + Sum(rows + tail, Brought(receipts + [doc], |receipts|, m, k))
    ensures Sum(rows + tail, Live(receipts + [doc.(status := Reversed)], m, k)) == Sum(rows, Live(receipts, m, k))
  {
    SumOfParts(rows, tail, Live(receipts + [doc], m, k), Live(receipts, m, k),
               Brought(receipts + [doc], |receipts|, m, k));
    SumConcat(rows, tail, Live(receipts + [doc.(status := Reversed)], m, k));
    SumEqual(rows, Live(receipts + [doc.(status := Reversed)], m, k), Live(receipts, m, k));
    SumZero(tail, Live(receipts + [doc.(status := Reversed)], m, k));
  }

  lemma {:induction false} NewReceiptAdds(db: Db, mid: Db, doc: Receipt, tail: seq<ReceiptLine>, m: Measure, k: Key)
    requires ReceiptRules.AddsReceipt(db, mid, doc, tail)
    ensures Sum(mid.receiptLines, Live(mid.receipts, m, k))
         == Sum(db.receiptLines, Live(db.receipts, m, k)) + Sum(mid.receiptLines,
                                                                Brought(mid.receipts, |db.receipts|, m, k))
    ensures Sum(mid.receiptLines, Live(mid.receipts[|db.receipts| := mid.receipts[|db.receipts|].(status := Reversed)],
                                       m, k))
         == Sum(db.receiptLines, Live(db.receipts, m, k))
  {
    NewLinesAdd(db.receipts, db.receiptLines, doc, tail, m, k);
    assert mid.receipts[|db.receipts| := doc.(status := Reversed)] == db.receipts + [doc.(status := Reversed)];
  }

  lemma {:induction false} SumOfParts<T>(a: seq<T>, b: seq<T>, whole: T -> int, f: T -> int, g: T -> int)
    requires forall x :: x in a ==> whole(x) == f(x) && g(x) == 0
    requires forall x :: x in b ==> whole(x) == g(x)
    ensures Sum(a + b, whole) == Sum(a, f) + Sum(a + b, g)
  {
    SumConcat(a, b, whole);
    SumConcat(a, b, g);
    SumEqual(a, whole, f);
    SumEqual(b, whole, g);
    SumZero(a, g);
  }

  // Rows of receipts and reversals leave the adjustments alone.
  lemma {:induction false} SameAdjustments(ledger: seq<Txn>, more: seq<Txn>, m: Measure, k: Key)
    requires forall i :: 0 <= i < |more| ==> ByReceipt(more[i])
    ensures Sum(ledger + more, Adjusted(m, k)) == Sum(ledger, Adjusted(m, k))
  {
    SumConcat(ledger, more, Adjusted(m, k));
    SumZero(more, Adjusted(m, k));
  }

  lemma {:induction false} ReceiptRowsByReceipt(db: Db, mid: Db, po: nat, warehouse: int,
          todo: seq<Receipts.ReceiveRequest>)
    requires Valid(db) && ReceiptRules.IsReceipt(db, mid, po, warehouse, todo)
    ensures forall m, k :: Sum(mid.ledger, Adjusted(m, k)) == Sum(db.ledger, Adjusted(m, k))
  {
    PriceNonNegative(db.pos, db.poLines);
    ReceiveGoodsPosts(db, warehouse, todo);
    var w := Receipts.ReceiveGoods(db, warehouse, todo).value.w;
    forall i | 0 <= i < |w.rows| ensures ByReceipt(w.rows[i]) {
      assert RowReceives(db.balances, warehouse, |db.receipts|, |db.receiptLines|, w, i);
    }
    forall m, k ensures Sum(mid.ledger, Adjusted(m, k)) == Sum(db.ledger, Adjusted(m, k)) {
      SameAdjustments(db.ledger, w.rows, m, k);
    }
  }

  lemma {:induction false} UndoRowsByReceipt(mid: Db, r: nat, m: Measure, k: Key)
    requires ReversibleIn(mid, r)
    ensures Sum(mid.ledger + UndoRows(mid, r), Adjusted(m, k)) == Sum(mid.ledger, Adjusted(m, k))
  {
    UndoRowsReady(mid, r);
    forall i | 0 <= i < |UndoRows(mid, r)| ensures ByReceipt(UndoRows(mid, r)[i]) {
      assert RowUndoes(mid, r, Receipts.LinesOf(mid.receiptLines, r)[i], UndoRows(mid, r), i);
    }
    SameAdjustments(mid.ledger, UndoRows(mid, r), m, k);
  }

  lemma {:induction false} JustPostedHolds(db: Db, mid: Db, doc: Receipt, tail: seq<ReceiptLine>, k: Key)
    requires Valid(db) && Valid(mid) && ReceiptRules.AddsReceipt(db, mid, doc, tail)
    requires Sum(mid.ledger, Adjusted(Quantity, k)) == Sum(db.ledger, Adjusted(Quantity, k))
    requires Sum(mid.ledger, Adjusted(Amount, k)) == Sum(db.ledger, Adjusted(Amount, k))
    ensures StillHolds(mid, |db.receipts|, k)
  {
    BookIsLiveStock(db, k);
    BookIsLiveStock(mid, k);
    NewReceiptAdds(db, mid, doc, tail, Quantity, k);
    NewReceiptAdds(db, mid, doc, tail, Amount, k);
  }

  // The receipt just posted can be reversed, ...
  lemma {:induction false} JustPostedReverses(db: Db, mid: Db, po: nat, warehouse: int,
          todo: seq<Receipts.ReceiveRequest>)
    requires Valid(db) && ReceiptRules.IsReceipt(db, mid, po, warehouse, todo) && Valid(mid) && Stored(mid)
    ensures Receipts.ReversedReceipt(mid, |db.receipts|).Ok?
  {
    ReceiptRowsByReceipt(db, mid, po, warehouse, todo);
    ReceiptRules.ReceiptEffect(db, mid, po, warehouse, todo);
    var doc, tail := Receipt(po, warehouse, Posted), mid.receiptLines[|db.receiptLines|..];
    forall k ensures StillHolds(mid, |db.receipts|, k) { JustPostedHolds(db, mid, doc, tail, k); }
    ReversalSucceedsIff(mid, |db.receipts|);
  }

  lemma {:induction false} ReversedLedger(mid: Db, after: Db, r: nat)
    requires Valid(mid) && ReceiptRules.IsReversal(mid, after, r)
    ensures forall m, k :: Sum(after.ledger, Adjusted(m, k)) == Sum(mid.ledger, Adjusted(m, k))
  {
    PostedIsReversible(mid, r);
    UndoGoodsPosts(mid, r);
    forall m, k ensures Sum(after.ledger, Adjusted(m, k)) == Sum(mid.ledger, Adjusted(m, k)) {
      UndoRowsByReceipt(mid, r, m, k);
    }
  }

  // ... and that gives back every balance,
  lemma {:induction false} ReversalRestoresBook(db: Db, mid: Db, after: Db, po: nat, warehouse: int,
          todo: seq<Receipts.ReceiveRequest>, k: Key)
    requires Valid(db) && ReceiptRules.IsReceipt(db, mid, po, warehouse, todo)
    requires Valid(mid) && ReceiptRules.IsReversal(mid, after, |db.receipts|) && Valid(after)
    ensures BalanceOf(after.balances, k) == BalanceOf(db.balances, k)
  {
    ReceiptRowsByReceipt(db, mid, po, warehouse, todo);
    ReversedLedger(mid, after, |db.receipts|);
    ReceiptRules.ReceiptEffect(db, mid, po, warehouse, todo);
    var doc, tail := Receipt(po, warehouse, Posted), mid.receiptLines[|db.receiptLines|..];
    NewReceiptAdds(db, mid, doc, tail, Quantity, k);
    NewReceiptAdds(db, mid, doc, tail, Amount, k);
    SameSumsSameBook(after, db, k);
  }

  // ... every received quantity, ...
  lemma {:induction false} ReversalRestoresReceived(db: Db, mid: Db, after: Db, doc: Receipt, tail: seq<ReceiptLine>,
          j: nat)
    requires ReceiptRules.RowsFit(db.poLines, db.receipts, db.receiptLines)
    requires ReceiptRules.RowsFit(after.poLines, after.receipts, after.receiptLines)
    requires ReceiptRules.AddsReceipt(db, mid, doc, tail) && after.receiptLines == mid.receiptLines
    requires after.receipts == db.receipts + [doc.(status := Reversed)]
    requires j < |db.poLines| == |after.poLines|
    ensures after.poLines[j].received == db.poLines[j].received
  {
    assert ReceiptRules.ReceivedFits(db.poLines, db.receipts, db.receiptLines, j);
    assert ReceiptRules.ReceivedFits(after.poLines, after.receipts, after.receiptLines, j);
    var f, g := ReceiptRules.PostedInto(after.receipts, j), ReceiptRules.PostedInto(db.receipts, j);
    SumConcat(db.receiptLines, tail, f);
    SumEqual(db.receiptLines, f, g);
    SumZero(tail, f);
  }

  lemma {:induction false} ReversalRestoresLines(db: Db, mid: Db, after: Db, doc: Receipt, tail: seq<ReceiptLine>)
    requires ReceiptRules.RowsFit(db.poLines, db.receipts, db.receiptLines)
    requires ReceiptRules.RowsFit(after.poLines, after.receipts, after.receiptLines)
    requires ReceiptRules.AddsReceipt(db, mid, doc, tail) && after.receiptLines == mid.receiptLines
    requires after.receipts == db.receipts + [doc.(status := Reversed)]
    requires ReceiptRules.OnlyReceives(db.poLines, mid.poLines, doc.po)
    requires ReceiptRules.OnlyReceives(mid.poLines, after.poLines, doc.po)
    ensures after.poLines == db.poLines
  {
    forall j | 0 <= j < |db.poLines| ensures after.poLines[j] == db.poLines[j] {
      ReversalRestoresReceived(db, mid, after, doc, tail, j);
    }
  }

  // ... and every order status.
  lemma {:induction false} ReversalRestoresOrders(db: Db, mid: Db, after: Db, po: nat, warehouse: int,
          todo: seq<Receipts.ReceiveRequest>)
    requires ReceiptRules.ReceiptsFit(db.pos, db.poLines, db.receipts, db.receiptLines)
    requires ReceiptRules.IsReceipt(db, mid, po, warehouse, todo)
    requires ReceiptRules.RowsFit(mid.poLines, mid.receipts, mid.receiptLines)
    requires ReceiptRules.IsReversal(mid, after, |db.receipts|)
    requires ReceiptRules.RowsFit(after.poLines, after.receipts, after.receiptLines)
    ensures after.poLines == db.poLines && after.pos == db.pos
  {
    hide ReceiptRules.RowsFit, Receipts.ReceiveGoods, Receipts.UndoGoods, ReceiptRules.TodoFits;
    ReceiptRules.ReceiptEffect(db, mid, po, warehouse, todo);
    ReceiptRules.ReversalEffect(mid, after, |db.receipts|);
    ReversalRestoresLines(db, mid, after, Receipt(po, warehouse, Posted), mid.receiptLines[|db.receiptLines|..]);
    StatusComesBack(db.pos, mid.pos, after.pos, db.poLines, mid.poLines, po);
  }

  lemma {:induction false} StatusComesBack(pos: seq<Po>, mid: seq<Po>, after: seq<Po>, poLines: seq<PoLine>,
          poLines1: seq<PoLine>, po: nat)
    requires po < |pos| && Receipts.Receivable(pos[po].status) && ReceiptRules.PoStatusFits(pos[po].status, poLines, po)
    requires mid == Receipts.WithStatus(pos, poLines1, po) && after == Receipts.WithStatus(mid, poLines, po)
    requires ReceiptRules.OnlyReceives(poLines, poLines1, po)
    ensures after == pos
  {
    if Orders.HasLines(poLines1, po) {
      var j :| 0 <= j < |poLines1| && poLines1[j].po == po;
      assert poLines[j] in poLines;
    }
  }

  // Posting a receipt and reversing it leaves every balance, every received quantity and every order as it was.
  lemma {:induction false} CreateThenReverse(db: Db, m: Master, po: nat, warehouse: int,
          items: seq<Receipts.ReceiveRequest>, mid: Db)
    requires Valid(db) && Receipts.CreatedReceipt(db, m, po, warehouse, items) == Ok(mid)
    ensures Stored(mid)
    ensures Receipts.ReversedReceipt(mid, |db.receipts|).Ok?
    ensures var after := Receipts.ReversedReceipt(mid, |db.receipts|).value;
      && after.poLines == db.poLines && after.pos == db.pos
      && forall k :: BalanceOf(after.balances, k) == BalanceOf(db.balances, k)
  {
    var todo := Receipts.Ordered(items);
    ReceiptRules.CreatedReceiptIs(db, m, po, warehouse, items, mid);
    ReceiptKeepsValid(db, mid, po, warehouse, todo);
    ValidIsStored(mid);
    JustPostedReverses(db, mid, po, warehouse, todo);
    var after := Receipts.ReversedReceipt(mid, |db.receipts|).value;
    ReceiptRules.ReversedReceiptIs(mid, |db.receipts|, after);
    ReversalKeepsValid(mid, after, |db.receipts|);
    ReversalRestoresOrders(db, mid, after, po, warehouse, todo);
    forall k ensures BalanceOf(after.balances, k) == BalanceOf(db.balances, k) {
      ReversalRestoresBook(db, mid, after, po, warehouse, todo, k);
    }
  }

  // ---------------------------------------------------------------------------------------------
  // When a receipt can be posted
  // ---------------------------------------------------------------------------------------------

  predicate Fits(poLines: seq<PoLine>, item: Receipts.ReceiveRequest) {
    item.poLine < |poLines| && poLines[item.poLine].received + item.quantity <= poLines[item.poLine].ordered
  }

  predicate AllFit(poLines: seq<PoLine>, todo: seq<Receipts.ReceiveRequest>) {
    forall i :: 0 <= i < |todo| ==> Fits(poLines, todo[i])
  }

  lemma {:induction false} FitsFront(poLines: seq<PoLine>, poLines2: seq<PoLine>, todo: seq<Receipts.ReceiveRequest>)
    requires todo != [] && DistinctOn(todo, Receipts.ByPoLine())
    requires |poLines2| == |poLines| && forall j :: 0 <= j < |poLines| && j != todo[0].poLine ==>
      poLines2[j] == poLines[j]
    ensures DistinctOn(todo[1..], Receipts.ByPoLine())
    ensures AllFit(poLines, todo) <==> Fits(poLines, todo[0]) && AllFit(poLines2, todo[1..])
  {
    var key := Receipts.ByPoLine();
    forall i, j | 0 <= i < j < |todo[1..]| ensures key(todo[1..][i]) != key(todo[1..][j]) {
      assert key(todo[i + 1]) != key(todo[j + 1]);
    }
    forall i | 1 <= i < |todo|
      ensures todo[1..][i - 1] == todo[i] && (Fits(poLines, todo[i]) <==> Fits(poLines2, todo[i]))
    {
      assert key(todo[0]) != key(todo[i]);
    }
  }

  lemma {:induction false} ReceiveLinesSucceedIff(balances: map<Key, Balance>, warehouse: int, receipt: nat,
          w: Receipts.Receiving, todo: seq<Receipts.ReceiveRequest>)
    requires DistinctOn(todo, Receipts.ByPoLine())
    requires forall i :: 0 <= i < |todo| ==> todo[i].poLine < |w.poLines|
    ensures Receipts.ReceiveLines(balances, warehouse, receipt, w, todo).Ok? <==> AllFit(w.poLines, todo)
    decreases |todo|
  {
    if todo != [] {
      var next := Receipts.ReceiveLine(balances, warehouse, receipt, w, todo[0]);
      if next.Ok? {
        FitsFront(w.poLines, next.value.poLines, todo);
        ReceiveLinesSucceedIff(balances, warehouse, receipt, next.value, todo[1..]);
      }
    }
  }

  // Goods coming in never take a balance below zero.
  lemma {:induction false} InboundIsCovered(balances: map<Key, Balance>, rows: seq<Txn>)
    requires BalanceChecks(balances)
    requires forall k :: 0 <= k < |rows| ==> RowReady(balances, rows, 1, k)
    ensures Covered(balances, rows)
  {
    forall t | t in rows ensures t.quantity >= 0 && t.amount >= 0 {
      var i :| 0 <= i < |rows| && rows[i] == t;
      assert RowReady(balances, rows, 1, i);
    }
    forall k | k in KeysOf(rows) ensures CoveredOn(balances, rows, k) {
      SumNonNegative(rows, QuantityOn(k));
      SumNonNegative(rows, AmountOn(k));
    }
  }

  lemma {:induction false} ReceiveGoodsSucceedsIff(db: Db, po: nat, warehouse: int, todo: seq<Receipts.ReceiveRequest>)
    requires BalanceChecks(db.balances) && ReceiptRules.TodoFits(db.poLines, po, todo)
    requires forall j :: 0 <= j < |db.poLines| ==> db.poLines[j].price >= 0
    ensures Receipts.ReceiveGoods(db, warehouse, todo).Ok? <==> AllFit(db.poLines, todo)
  {
    var start := Receipts.Receiving(db.poLines, db.receiptLines, []);
    ReceiveLinesSucceedIff(db.balances, warehouse, |db.receipts|, start, todo);
    var w := Receipts.ReceiveLines(db.balances, warehouse, |db.receipts|, start, todo);
    if w.Ok? {
      ReceivedRowsReady(db, warehouse, todo, w.value);
      InboundIsCovered(db.balances, w.value.rows);
      AppliedRowsPost(db.balances, Receipts.KeysOrdered(db.poLines, warehouse, todo), 1, w.value.rows);
    }
  }

  lemma {:induction false} SameItemsFit(poLines: seq<PoLine>, items: seq<Receipts.ReceiveRequest>)
    ensures AllFit(poLines, items) <==> AllFit(poLines, Receipts.Ordered(items))
  {
    var todo := Receipts.Ordered(items);
    forall i | 0 <= i < |todo| ensures todo[i] in items { SortMembers(items, Receipts.ByPoLine(), todo[i]); }
    forall i | 0 <= i < |items| ensures items[i] in todo { SortMembers(items, Receipts.ByPoLine(), items[i]); }
  }

  // In every reachable state, create_receipt succeeds exactly on a well delivered payload no line of which exceeds what
  // remains; the stock itself never refuses a receipt.
  lemma {:induction false} CreateReceiptSucceedsIff(db: Db, m: Master, po: nat, warehouse: int,
          items: seq<Receipts.ReceiveRequest>)
    requires Valid(db) && Stored(db)
    ensures Receipts.CreatedReceipt(db, m, po, warehouse, items).Ok? <==>
      WellDelivered(db, m, po, warehouse, items) && AllFit(db.poLines, items)
  {
    hide WellDelivered;
    ReceiptPrecheckIs(db, m, po, warehouse, items);
    if Receipts.Precheck(db, m, po, warehouse, items).Ok? {
      Receipts.OrderedFacts(db.poLines, m, po, items);
      PriceNonNegative(db.pos, db.poLines);
      ReceiveGoodsSucceedsIff(db, po, warehouse, Receipts.Ordered(items));
      SameItemsFit(db.poLines, items);
    }
  }

  // ---------------------------------------------------------------------------------------------
  // Splitting an order line over several receipts
  // ---------------------------------------------------------------------------------------------

  function PostedOn(receipts: seq<Receipt>, j: nat): ReceiptLine -> bool {
    (l: ReceiptLine) => l.poLine == j && l.receipt < |receipts| && receipts[l.receipt].status == Posted
  }

  function Quantities(lines: seq<ReceiptLine>): (r: seq<int>)
    ensures |r| == |lines| && forall i :: 0 <= i < |r| ==> r[i] == lines[i].quantity
  {
    seq(|lines|, i requires 0 <= i < |lines| => lines[i].quantity)
  }

  function AmountOf(): ReceiptLine -> int {
    (l: ReceiptLine) => l.amount
  }

  // Once order line j is fully received over k live receipt lines, what was booked for them differs from the line's own
  // amount by at most (k+1) half cents, and not at all when it came in one delivery.
  lemma {:induction false} SplitDeliveryValue(db: Db, j: nat)
    requires Valid(db) && j < |db.poLines| && db.poLines[j].received == db.poLines[j].ordered
    ensures var live := Select(db.receiptLines, PostedOn(db.receipts, j));
            var drift := Sum(live, AmountOf()) - db.poLines[j].amount;
            -(|live| + 1) <= 2 * drift <= |live| + 1 && (|live| == 1 ==> drift == 0)
  {
    var live, price := Select(db.receiptLines, PostedOn(db.receipts, j)), db.poLines[j].price;
    var parts := Quantities(live);
    forall i | 0 <= i < |live| ensures live[i].amount == LineAmount(parts[i], price) {
      assert live[i] in live;
      var n :| 0 <= n < |db.receiptLines| && db.receiptLines[n] == live[i];
      assert ReceiptRules.ReceiptLineFits(db.poLines, db.receipts, db.receiptLines[n]);
    }
    var quantity := (l: ReceiptLine) => l.quantity;
    SumSelect(db.receiptLines, PostedOn(db.receipts, j), quantity, ReceiptRules.PostedInto(db.receipts, j));
    SumAlike(live, parts, quantity, ITSELF);
    SumAlike(live, parts, AmountOf(), q => LineAmount(q, price));
    SplitValueBound(parts, price);
    assert ReceiptRules.ReceivedFits(db.poLines, db.receipts, db.receiptLines, j);
    assert OrderRules.PoLineFits(db.pos, db.poLines[j]);
  }
}
