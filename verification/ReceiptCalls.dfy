/** What a receipt and its reversal ask of their caller and payload, and exactly what they leave in the tables. */
module ReceiptCalls {
  import opened Sums
  import opened Money
  import opened Sorting
  import opened Tables
  import opened Acceptance
  import opened Inventory
  import opened Receipts
  import opened ReceiptRules
  import opened LedgerRules
  import opened Validity
  import CountRules
  import Orders
  import RequisitionRules
  import StockLaws

  // ---------------------------------------------------------------------------------------------
  // The lines of a receipt
  // ---------------------------------------------------------------------------------------------

  // Some new line is what this request brings in, at the material and the price of its order line.
  predicate Delivers(poLines: seq<PoLine>, receipt: nat, lines: seq<ReceiptLine>, first: nat, item: ReceiveRequest) {
    exists n :: 0 <= n < |lines| && WrittenAs(poLines, receipt, lines, first, item, n)
  }

  // From line `first` on there is exactly one line for each request, in the order of the order lines.
  predicate Delivered(poLines: seq<PoLine>, receipt: nat, items: seq<ReceiveRequest>, lines: seq<ReceiptLine>,
          first: nat) {
    && |lines| == first + |items|
    && (forall i :: 0 <= i < |items| ==> Delivers(poLines, receipt, lines, first, items[i]))
    && (forall i, j :: first <= i < j < |lines| ==> lines[i].poLine < lines[j].poLine)
  }

  lemma {:induction false} OrderedAscends(items: seq<ReceiveRequest>)
    requires RequestsOk(items, {}).Ok?
    ensures forall i, j :: 0 <= i < j < |Ordered(items)| ==> Ordered(items)[i].poLine < Ordered(items)[j].poLine
    ensures |Ordered(items)| == |items|
  {
    RequestsFacts(items, {});
    SortKeepsDistinct(items, ByPoLine());
    var todo := Ordered(items);
    forall i, j | 0 <= i < j < |todo| ensures todo[i].poLine < todo[j].poLine {
      assert ByPoLine()(todo[i]) <= ByPoLine()(todo[j]) && ByPoLine()(todo[i]) != ByPoLine()(todo[j]);
    }
  }

  lemma {:induction false} WrittenIsDelivered(poLines: seq<PoLine>, receipt: nat, items: seq<ReceiveRequest>,
          lines: seq<ReceiptLine>, first: nat)
    requires RequestsOk(items, {}).Ok? && |lines| == first + |items| == first + |Ordered(items)|
    requires forall k :: 0 <= k < |items| ==> WrittenAs(poLines, receipt, lines, first, Ordered(items)[k], k)
    ensures Delivered(poLines, receipt, items, lines, first)
  {
    OrderedAscends(items);
    hide LineAmount, RequestsOk;
    var todo := Ordered(items);
    forall i | 0 <= i < |items| ensures Delivers(poLines, receipt, lines, first, items[i]) {
      SortMembers(items, ByPoLine(), items[i]);
      var n :| 0 <= n < |todo| && todo[n] == items[i];
      assert WrittenAs(poLines, receipt, lines, first, todo[n], n);
    }
    forall i, j | first <= i < j < |lines| ensures lines[i].poLine < lines[j].poLine {
      assert WrittenAs(poLines, receipt, lines, first, todo[i - first], i - first);
      assert WrittenAs(poLines, receipt, lines, first, todo[j - first], j - first);
    }
  }

  // What a payload brings into order line j.
  function BroughtInto(j: nat): ReceiveRequest -> int {
    (i: ReceiveRequest) => if i.poLine == j then i.quantity else 0
  }

  lemma {:induction false} ReceivedSoMuch(balances: map<Key, Balance>, warehouse: int, receipt: nat, w: Receiving,
          todo: seq<ReceiveRequest>, j: nat)
    requires forall i :: 0 <= i < |todo| ==> todo[i].poLine < |w.poLines|
    requires ReceiveLines(balances, warehouse, receipt, w, todo).Ok? && j < |w.poLines|
    ensures var r := ReceiveLines(balances, warehouse, receipt, w, todo).value;
      && |r.poLines| == |w.poLines|
      && r.poLines[j] == w.poLines[j].(received := w.poLines[j].received + Sum(todo, BroughtInto(j)))
    decreases |todo|
  {
    if todo != [] {
      ReceiveLineWrites(balances, warehouse, receipt, w, todo[0]);
      hide ReceiveLine, LineAmount;
      var next := ReceiveLine(balances, warehouse, receipt, w, todo[0]).value;
      ReceivedSoMuch(balances, warehouse, receipt, next, todo[1..], j);
      SumFront(todo, BroughtInto(j));
    }
  }

  // ---------------------------------------------------------------------------------------------
  // Ledger rows
  // ---------------------------------------------------------------------------------------------

  // Row k records line first + k as it was received, and runs on from the balance before.
  predicate Records(balances: map<Key, Balance>, warehouse: int, receipt: nat, first: nat, lines: seq<ReceiptLine>,
          rows: seq<Txn>, k: nat)
    requires k < |rows|
  {
    && k < |lines| && RunsAt(balances, rows, k)
    && rows[k] == Txn(PurchaseIn, Key(warehouse, lines[k].material), lines[k].quantity, lines[k].price, lines[k].amount,
                      rows[k].after, ReceiptSource(receipt, first + k), None)
  }

  lemma {:induction false} ReceivedIsRecorded(balances: map<Key, Balance>, warehouse: int, receipt: nat, first: nat,
          w: Receiving, k: nat)
    requires ReceivingRows(balances, warehouse, receipt, first, w) && k < |w.rows|
    ensures Records(balances, warehouse, receipt, first, w.lines[first..], w.rows, k)
  {
    assert RowReceives(balances, warehouse, receipt, first, w, k);
  }

  // What lines bring onto a key.
  function LinesOn(warehouse: int, k: Key, m: StockLaws.Measure): ReceiptLine -> int {
    (l: ReceiptLine) => if Key(warehouse, l.material) == k then StockLaws.OfLine(m, l) else 0
  }

  lemma {:induction false} RowsAreLines(balances: map<Key, Balance>, warehouse: int, receipt: nat, first: nat,
          lines: seq<ReceiptLine>, rows: seq<Txn>, k: Key, m: StockLaws.Measure)
    requires |rows| == |lines|
    requires forall n :: 0 <= n < |rows| ==> Records(balances, warehouse, receipt, first, lines, rows, n)
    ensures Sum(rows, StockLaws.On(m, k)) == Sum(lines, LinesOn(warehouse, k, m))
  {
    forall n | 0 <= n < |rows| ensures StockLaws.On(m, k)(rows[n]) == LinesOn(warehouse, k, m)(lines[n]) {
      assert Records(balances, warehouse, receipt, first, lines, rows, n);
    }
    SumAlike(rows, lines, StockLaws.On(m, k), LinesOn(warehouse, k, m));
  }

  // A balance moved by exactly this much, its average the quotient of what is there now.
  predicate MovedBy(was: Balance, quantity: int, amount: int, now: Balance) {
    && now.quantity == was.quantity + quantity && now.total == was.total + amount
    && now.average == NewAverage(now.total, now.quantity)
  }

  predicate BooksAgree(db: Db, after: Db, warehouse: int, lines: seq<ReceiptLine>, k: Key) {
    MovedBy(BalanceOf(db.balances, k), Sum(lines, LinesOn(warehouse, k, StockLaws.Quantity)),
            Sum(lines, LinesOn(warehouse, k, StockLaws.Amount)), BalanceOf(after.balances, k))
  }

  // ---------------------------------------------------------------------------------------------
  // Statuses
  // ---------------------------------------------------------------------------------------------

  predicate FullyIn(poLines: seq<PoLine>, po: nat) {
    forall j :: 0 <= j < |poLines| && poLines[j].po == po ==> poLines[j].received == poLines[j].ordered
  }

  predicate NoneIn(poLines: seq<PoLine>, po: nat) {
    forall j :: 0 <= j < |poLines| && poLines[j].po == po ==> poLines[j].received == 0
  }

  function StatusOf(poLines: seq<PoLine>, po: nat): PoStatus {
    if NoneIn(poLines, po) then PoConfirmed else if FullyIn(poLines, po) then PoReceived else PoPartiallyReceived
  }

  lemma {:induction false} StatusIs(poLines: seq<PoLine>, po: nat)
    ensures StatusFor(poLines, po) == StatusOf(poLines, po)
  {
    forall j | 0 <= j < |poLines| ensures poLines[j] in poLines {}
    if NoneIn(poLines, po) {
      forall l | l in poLines && l.po == po ensures l.received == 0 { var j :| 0 <= j < |poLines| && poLines[j] == l; }
    }
    if FullyIn(poLines, po) {
      forall l | l in poLines && l.po == po ensures l.received == l.ordered {
        var j :| 0 <= j < |poLines| && poLines[j] == l;
      }
    }
  }

  // ---------------------------------------------------------------------------------------------
  // create_receipt
  // ---------------------------------------------------------------------------------------------

  // The goods of a successful receipt: what its writing loop left, and the aggregates posted.
  lemma {:induction false} GoodsOf(db: Db, m: Master, po: nat, warehouse: int, items: seq<ReceiveRequest>, after: Db)
    returns (todo: seq<ReceiveRequest>, r: Received)
    requires CreatedReceipt(db, m, po, warehouse, items) == Ok(after)
    ensures todo == Ordered(items) && RequestsOk(items, {}).Ok? && |todo| == |items| > 0
    ensures TodoFits(db.poLines, po, todo) && ReceiveGoods(db, warehouse, todo) == Ok(r)
    ensures po < |db.pos| && after == WithReceipt(db, po, warehouse, r)
  {
    hide RequestsOk, LinesOk, ReceiveGoods, WithReceipt;
    OrderedFacts(db.poLines, m, po, items);
    todo := Ordered(items);
    r := ReceiveGoods(db, warehouse, todo).value;
  }

  lemma {:induction false} GoodsWritten(db: Db, po: nat, warehouse: int, items: seq<ReceiveRequest>,
          todo: seq<ReceiveRequest>, r: Received)
    requires todo == Ordered(items) && RequestsOk(items, {}).Ok? && |todo| == |items|
    requires TodoFits(db.poLines, po, todo) && ReceiveGoods(db, warehouse, todo) == Ok(r)
    ensures Delivered(db.poLines, |db.receipts|, items, r.w.lines, |db.receiptLines|)
    ensures |r.w.lines| >= |db.receiptLines| && r.w.lines[..|db.receiptLines|] == db.receiptLines
    ensures |r.w.poLines| == |db.poLines|
    ensures forall j :: 0 <= j < |db.poLines| ==>
      r.w.poLines[j] == db.poLines[j].(received := db.poLines[j].received + Sum(items, BroughtInto(j)))
  {
    hide ReceiveLines, LockAndApply, WrittenAs, RequestsOk, Ordered;
    var start := Receiving(db.poLines, db.receiptLines, []);
    ReceiveLinesWritten(db.balances, warehouse, |db.receipts|, start, todo);
    WrittenIsDelivered(db.poLines, |db.receipts|, items, r.w.lines, |db.receiptLines|);
    ReceiveKeepsLines(db.balances, warehouse, |db.receipts|, start, todo);
    forall j | 0 <= j < |db.poLines|
      ensures r.w.poLines[j] == db.poLines[j].(received := db.poLines[j].received + Sum(items, BroughtInto(j)))
    {
      ReceivedSoMuch(db.balances, warehouse, |db.receipts|, start, todo, j);
      SortedSum(items, j);
    }
  }

  lemma {:induction false} ReceiveKeepsLines(balances: map<Key, Balance>, warehouse: int, receipt: nat, w: Receiving,
          todo: seq<ReceiveRequest>)
    requires forall i :: 0 <= i < |todo| ==> todo[i].poLine < |w.poLines|
    requires ReceiveLines(balances, warehouse, receipt, w, todo).Ok?
    ensures |ReceiveLines(balances, warehouse, receipt, w, todo).value.poLines| == |w.poLines|
    decreases |todo|
  {
    if todo != [] {
      var next := ReceiveLine(balances, warehouse, receipt, w, todo[0]).value;
      ReceiveKeepsLines(balances, warehouse, receipt, next, todo[1..]);
    }
  }

  lemma {:induction false} SortedSum(items: seq<ReceiveRequest>, j: nat)
    ensures Sum(Ordered(items), BroughtInto(j)) == Sum(items, BroughtInto(j))
  {
    SortPermutes(items, ByPoLine());
    SumAnyOrder(Ordered(items), items, BroughtInto(j));
  }

  // The rows of a receipt, one for each of its lines.
  ghost predicate Recorded(db: Db, after: Db, warehouse: int) {
    && |after.ledger| - |db.ledger| == |after.receiptLines| - |db.receiptLines| >= 0
    && after.ledger[..|db.ledger|] == db.ledger
    && forall k :: 0 <= k < |after.ledger| - |db.ledger| ==>
         Records(db.balances, warehouse, |db.receipts|, |db.receiptLines|, after.receiptLines[|db.receiptLines|..],
                 after.ledger[|db.ledger|..], k)
  }

  lemma {:induction false} GoodsRecorded(db: Db, after: Db, po: nat, warehouse: int, todo: seq<ReceiveRequest>,
          r: Received)
    requires TodoFits(db.poLines, po, todo) && ReceiveGoods(db, warehouse, todo) == Ok(r)
    requires forall j :: 0 <= j < |db.poLines| ==> db.poLines[j].price >= 0
    requires after.receiptLines == r.w.lines && after.ledger == db.ledger + r.w.rows
    ensures Recorded(db, after, warehouse) && after.ledger[|db.ledger|..] == r.w.rows
    ensures r.balances == Post(db.balances, r.w.rows)
  {
    hide Records, ReceiveLines, LockAndApply, RowReceives, Post, Covered, OneWay, Running;
    ReceiveGoodsPosts(db, warehouse, todo);
    forall k | 0 <= k < |r.w.rows|
      ensures Records(db.balances, warehouse, |db.receipts|, |db.receiptLines|, r.w.lines[|db.receiptLines|..],
                      r.w.rows, k)
    {
      ReceivedIsRecorded(db.balances, warehouse, |db.receipts|, |db.receiptLines|, r.w, k);
    }
  }

  lemma {:induction false} PostedOn(balances: map<Key, Balance>, rows: seq<Txn>, k: Key)
    ensures BalanceOf(Post(balances, rows), k) == After(BalanceOf(balances, k), rows, k)
  {
  }

  lemma {:induction false} BooksFollow(db: Db, after: Db, warehouse: int, k: Key)
    requires Valid(db) && Recorded(db, after, warehouse)
    requires after.balances == Post(db.balances, after.ledger[|db.ledger|..])
    ensures BooksAgree(db, after, warehouse, after.receiptLines[|db.receiptLines|..], k)
  {
    hide Valid, Records, Post, RequisitionRules.RequisitionsOk;
    var rows, lines := after.ledger[|db.ledger|..], after.receiptLines[|db.receiptLines|..];
    PostedOn(db.balances, rows, k);
    AfterExactly(BalanceOf(db.balances, k), rows, k);
    StockLaws.QuotientAverage(db, k);
    RowsAreLines(db.balances, warehouse, |db.receipts|, |db.receiptLines|, lines, rows, k, StockLaws.Quantity);
    RowsAreLines(db.balances, warehouse, |db.receipts|, |db.receiptLines|, lines, rows, k, StockLaws.Amount);
    SumEqual(rows, QuantityOn(k), StockLaws.On(StockLaws.Quantity, k));
    SumEqual(rows, AmountOn(k), StockLaws.On(StockLaws.Amount, k));
  }

  // In every reachable state create_receipt adds the posted document, one line and one ledger row for each request,
  // moves each key by what its lines bring, derives the order's status, and changes nothing else.
  lemma {:induction false} CreatedReceiptLeaves(db: Db, m: Master, po: nat, warehouse: int, items: seq<ReceiveRequest>,
          after: Db)
    requires Valid(db) && Stored(db) && CreatedReceipt(db, m, po, warehouse, items) == Ok(after)
    ensures after.receipts == db.receipts + [Receipt(po, warehouse, Posted)]
    ensures |after.receiptLines| >= |db.receiptLines| && after.receiptLines[..|db.receiptLines|] == db.receiptLines
    ensures Delivered(db.poLines, |db.receipts|, items, after.receiptLines, |db.receiptLines|)
    ensures |after.poLines| == |db.poLines| && forall j :: 0 <= j < |db.poLines| ==>
      after.poLines[j] == db.poLines[j].(received := db.poLines[j].received + Sum(items, BroughtInto(j)))
    ensures Recorded(db, after, warehouse)
    ensures forall k :: BooksAgree(db, after, warehouse, after.receiptLines[|db.receiptLines|..], k)
    ensures po < |db.pos| && after.pos == db.pos[po := db.pos[po].(status := StatusOf(after.poLines, po))]
    ensures after == db.(receipts := after.receipts, receiptLines := after.receiptLines, poLines := after.poLines,
                         ledger := after.ledger, balances := after.balances, pos := after.pos,
                         audit := db.audit + [Audit(ReceiptPosted, |db.receipts|)])
  {
    hide Valid, Delivered, Recorded, BooksAgree, ReceiveGoods, TodoFits, Post, StatusOf, CreatedReceipt;
    var todo, r := GoodsOf(db, m, po, warehouse, items, after);
    GoodsWritten(db, po, warehouse, items, todo, r);
    StoredPrices(db);
    GoodsRecorded(db, after, po, warehouse, todo, r);
    forall k ensures BooksAgree(db, after, warehouse, after.receiptLines[|db.receiptLines|..], k) {
      BooksFollow(db, after, warehouse, k);
    }
    StatusIs(after.poLines, po);
    OrderHasLine(db, po, todo, items, r.w.poLines);
  }

  lemma {:induction false} StoredPrices(db: Db)
    requires Stored(db)
    ensures forall j :: 0 <= j < |db.poLines| ==> db.poLines[j].price >= 0
  {
  }

  lemma {:induction false} OrderHasLine(db: Db, po: nat, todo: seq<ReceiveRequest>, items: seq<ReceiveRequest>,
          poLines2: seq<PoLine>)
    requires TodoFits(db.poLines, po, todo) && todo != [] && |poLines2| == |db.poLines|
    requires forall j :: 0 <= j < |db.poLines| ==> poLines2[j].po == db.poLines[j].po
    ensures Orders.HasLines(poLines2, po)
  {
    assert poLines2[todo[0].poLine] in poLines2;
  }

  lemma {:induction false} ReceiveLinesErrors(balances: map<Key, Balance>, warehouse: int, receipt: nat, w: Receiving,
          todo: seq<ReceiveRequest>)
    requires forall i :: 0 <= i < |todo| ==> todo[i].poLine < |w.poLines|
    ensures ReceiveLines(balances, warehouse, receipt, w, todo).Err? ==>
      ReceiveLines(balances, warehouse, receipt, w, todo).error == ReceiptExceedsRemaining
    decreases |todo|
  {
    if todo != [] && ReceiveLine(balances, warehouse, receipt, w, todo[0]).Ok? {
      ReceiveLinesErrors(balances, warehouse, receipt, ReceiveLine(balances, warehouse, receipt, w, todo[0]).value,
                         todo[1..]);
    }
  }

  // Why create_receipt is refused: for its payload, or for a line that exceeds what remains of its order line.
  lemma {:induction false} CreatedReceiptRefused(db: Db, m: Master, po: nat, warehouse: int, items: seq<ReceiveRequest>)
    requires Valid(db) && Stored(db) && CreatedReceipt(db, m, po, warehouse, items).Err?
    ensures var e := CreatedReceipt(db, m, po, warehouse, items).error;
      if WellDelivered(db, m, po, warehouse, items) then e == ReceiptExceedsRemaining
      else DeliveryRefusal(db, m, po, warehouse, items, e)
  {
    hide WellDelivered, DeliveryRefusal;
    ReceiptPrecheckIs(db, m, po, warehouse, items);
    if Precheck(db, m, po, warehouse, items).Ok? { GoodsRefused(db, m, po, warehouse, items); }
  }

  lemma {:induction false} GoodsRefused(db: Db, m: Master, po: nat, warehouse: int, items: seq<ReceiveRequest>)
    requires Stored(db) && Precheck(db, m, po, warehouse, items).Ok?
    requires CreatedReceipt(db, m, po, warehouse, items).Err?
    ensures CreatedReceipt(db, m, po, warehouse, items).error == ReceiptExceedsRemaining
  {
    OrderedFacts(db.poLines, m, po, items);
    var todo, start := Ordered(items), Receiving(db.poLines, db.receiptLines, []);
    ReceiveLinesErrors(db.balances, warehouse, |db.receipts|, start, todo);
    var w := ReceiveLines(db.balances, warehouse, |db.receipts|, start, todo);
    if w.Ok? {
      hide ReceiveLines, LockAndApply, RequestsOk, LinesOk, Covered, RowReady;
      ReceivedRowsReady(db, warehouse, todo, w.value);
      StockLaws.InboundIsCovered(db.balances, w.value.rows);
      AppliedRowsPost(db.balances, KeysOrdered(db.poLines, warehouse, todo), 1, w.value.rows);
    }
  }

  // ---------------------------------------------------------------------------------------------
  // reverse_receipt
  // ---------------------------------------------------------------------------------------------

  predicate IsLineOf(lines: seq<ReceiptLine>, r: nat, n: nat) {
    n < |lines| && lines[n].receipt == r
  }

  // The receipt line that row k undoes.
  predicate Undoes(db: Db, r: nat, rows: seq<Txn>, k: nat, n: nat)
    requires r < |db.receipts| && k < |rows|
  {
    IsLineOf(db.receiptLines, r, n) && rows[k].source == ReversalSource(r, n) && RowUndoes(db, r, n, rows, k)
  }

  predicate UndoneBy(db: Db, r: nat, rows: seq<Txn>, n: nat)
    requires r < |db.receipts|
  {
    exists k :: 0 <= k < |rows| && Undoes(db, r, rows, k, n)
  }

  predicate UndoesSome(db: Db, r: nat, rows: seq<Txn>, k: nat)
    requires r < |db.receipts| && k < |rows|
  {
    exists n :: 0 <= n < |db.receiptLines| && Undoes(db, r, rows, k, n)
  }

  predicate InLineOrder(lines: seq<ReceiptLine>, rows: seq<Txn>, k: nat, l: nat)
    requires k < |rows| && l < |rows|
  {
    && rows[k].source.ReversalSource? && rows[l].source.ReversalSource?
    && rows[k].source.line < |lines| && rows[l].source.line < |lines|
    && lines[rows[k].source.line].poLine < lines[rows[l].source.line].poLine
  }

  // One mirror row for each line of the receipt and no other, in the order of the order lines.
  ghost predicate AllUndone(db: Db, r: nat, rows: seq<Txn>)
    requires r < |db.receipts|
  {
    && (forall k :: 0 <= k < |rows| ==> UndoesSome(db, r, rows, k))
    && (forall n: nat :: IsLineOf(db.receiptLines, r, n) ==> UndoneBy(db, r, rows, n))
    && (forall k, l :: 0 <= k < l < |rows| ==> InLineOrder(db.receiptLines, rows, k, l))
  }

  lemma {:induction false} LinesAscend(db: Db, r: nat)
    requires RowsFit(db.poLines, db.receipts, db.receiptLines)
    ensures var ns := LinesOf(db.receiptLines, r);
      forall k, l :: 0 <= k < l < |ns| && ns[k] < |db.receiptLines| && ns[l] < |db.receiptLines| ==>
        db.receiptLines[ns[k]].poLine < db.receiptLines[ns[l]].poLine
  {
    var ns, key := LinesOf(db.receiptLines, r), PoLineOf(db.receiptLines);
    LinesOfDistinct(db.poLines, db.receipts, db.receiptLines, r);
    LinesOfMembers(db.receiptLines, r);
    forall k, l | 0 <= k < l < |ns| && ns[k] < |db.receiptLines| && ns[l] < |db.receiptLines|
      ensures db.receiptLines[ns[k]].poLine < db.receiptLines[ns[l]].poLine
    {
      assert key(ns[k]) <= key(ns[l]) && ns[k] != ns[l];
      DifferentSlots(db.poLines, db.receipts, db.receiptLines, ns[k], ns[l]);
    }
  }

  lemma {:induction false} DifferentSlots(poLines: seq<PoLine>, receipts: seq<Receipt>, rows: seq<ReceiptLine>, m: nat,
          n: nat)
    requires RowsFit(poLines, receipts, rows) && m < |rows| && n < |rows| && m != n
    requires rows[m].receipt == rows[n].receipt
    ensures rows[m].poLine != rows[n].poLine
  {
    var low, high := if m < n then m else n, if m < n then n else m;
    assert !SameSlot(rows[low], rows[high]);
  }

  lemma {:induction false} UndoesLine(db: Db, r: nat, rows: seq<Txn>, k: nat, n: nat)
    requires r < |db.receipts| && k < |rows| && IsLineOf(db.receiptLines, r, n) && RowUndoes(db, r, n, rows, k)
    ensures Undoes(db, r, rows, k, n)
  {
  }

  // Row k undoes the k-th of these lines.
  ghost predicate UndoneInTurn(db: Db, r: nat, rows: seq<Txn>, ns: seq<nat>)
    requires r < |db.receipts|
  {
    |rows| == |ns| && forall k :: 0 <= k < |rows| ==> Undoes(db, r, rows, k, ns[k])
  }

  lemma {:induction false} UndoneInTurnIs(db: Db, r: nat)
    requires ReversibleIn(db, r)
    ensures UndoneInTurn(db, r, UndoRows(db, r), LinesOf(db.receiptLines, r))
  {
    UndoRowsReady(db, r);
    LinesOfMembers(db.receiptLines, r);
    hide ReversibleIn, RowUndoes, LinesOf, UndoRows, Undoes;
    var ns, rows := LinesOf(db.receiptLines, r), UndoRows(db, r);
    forall k | 0 <= k < |rows| ensures Undoes(db, r, rows, k, ns[k]) { UndoesLine(db, r, rows, k, ns[k]); }
  }

  lemma {:induction false} EachUndone(db: Db, r: nat, rows: seq<Txn>, ns: seq<nat>, n: nat)
    requires r < |db.receipts| && UndoneInTurn(db, r, rows, ns) && n in ns
    ensures UndoneBy(db, r, rows, n)
  {
    hide Undoes;
    var k :| 0 <= k < |ns| && ns[k] == n;
    assert Undoes(db, r, rows, k, ns[k]);
  }

  lemma {:induction false} UndoesLineOf(db: Db, r: nat, rows: seq<Txn>, k: nat, n: nat)
    requires r < |db.receipts| && k < |rows| && Undoes(db, r, rows, k, n)
    ensures UndoesSome(db, r, rows, k)
    ensures rows[k].source == ReversalSource(r, n) && n < |db.receiptLines|
  {
  }

  lemma {:induction false} RowsUndo(db: Db, r: nat, rows: seq<Txn>)
    requires ReversibleIn(db, r) && rows == UndoRows(db, r)
    ensures AllUndone(db, r, rows)
  {
    UndoneInTurnIs(db, r);
    LinesOfMembers(db.receiptLines, r);
    LinesAscend(db, r);
    hide ReversibleIn, LinesOf, UndoRows, Undoes, UndoesSome, UndoneBy, InLineOrder;
    var ns := LinesOf(db.receiptLines, r);
    forall k | 0 <= k < |rows| ensures UndoesSome(db, r, rows, k) { UndoesLineOf(db, r, rows, k, ns[k]); }
    forall n: nat | IsLineOf(db.receiptLines, r, n) ensures UndoneBy(db, r, rows, n) {
      EachUndone(db, r, rows, ns, n);
    }
    forall k, l | 0 <= k < l < |rows| ensures InLineOrder(db.receiptLines, rows, k, l) {
      RowsInOrder(db, r, rows, k, ns[k], l, ns[l]);
    }
  }

  lemma {:induction false} RowsInOrder(db: Db, r: nat, rows: seq<Txn>, k: nat, m: nat, l: nat, n: nat)
    requires r < |db.receipts| && k < |rows| && l < |rows| && Undoes(db, r, rows, k, m) && Undoes(db, r, rows, l, n)
    requires m < |db.receiptLines| && n < |db.receiptLines| && db.receiptLines[m].poLine < db.receiptLines[n].poLine
    ensures InLineOrder(db.receiptLines, rows, k, l)
  {
  }

  // The balance of every key after the reversal.
  predicate TakenOff(db: Db, r: nat, after: Db, k: Key)
    requires r < |db.receipts|
  {
    MovedBy(BalanceOf(db.balances, k), -Sum(db.receiptLines, StockLaws.Brought(db.receipts, r, StockLaws.Quantity, k)),
            -Sum(db.receiptLines, StockLaws.Brought(db.receipts, r, StockLaws.Amount, k)), BalanceOf(after.balances, k))
  }

  lemma {:induction false} TakesOff(db: Db, r: nat, after: Db)
    requires Valid(db) && Stored(db) && ReversedReceipt(db, r) == Ok(after)
    ensures r < |db.receipts| && forall k :: TakenOff(db, r, after, k)
  {
    hide Valid, Stored, ReversedReceipt, Sum;
    StockLaws.ReversalLeaves(db, r, after, Key(0, 0));
    forall k ensures TakenOff(db, r, after, k) { StockLaws.ReversalLeaves(db, r, after, k); }
  }

  lemma {:induction false} ReversalRows(db: Db, r: nat, after: Db) returns (rows: seq<Txn>)
    requires Valid(db) && Stored(db) && ReversedReceipt(db, r) == Ok(after)
    ensures r < |db.receipts| && db.receipts[r].status == Posted && ReversibleIn(db, r) && rows == UndoRows(db, r)
    ensures IsReversal(db, after, r) && after.ledger == db.ledger + rows
    ensures after == db.(receipts := after.receipts, poLines := after.poLines, ledger := after.ledger,
                         balances := after.balances, pos := after.pos,
                         audit := db.audit + [Audit(ReceiptWasReversed, r)])
    ensures after.poLines == UndoGoods(db, r).value.w.poLines
  {
    hide Valid, UndoGoods, RequisitionKeys, OrderKeys, BalanceChecks, PostsRows, Covered;
    PostedIsReversible(db, r);
    ReversedReceiptIs(db, r, after);
    UndoGoodsPosts(db, r);
    rows := UndoRows(db, r);
  }

  lemma {:induction false} ReversalTakesBack(db: Db, r: nat, after: Db)
    requires RowsFit(db.poLines, db.receipts, db.receiptLines) && IsReversal(db, after, r)
    requires after.poLines == UndoGoods(db, r).value.w.poLines
    ensures |after.poLines| == |db.poLines|
    ensures forall j :: 0 <= j < |db.poLines| ==>
      after.poLines[j] == db.poLines[j].(received := db.poLines[j].received - Sum(db.receiptLines, OnReceipt(r, j)))
  {
    hide UndoGoods, RowsFit, LinesOf, WithReversal;
    UndoGoodsTakesBack(db, r);
    forall j: nat
      ensures Sum(LinesOf(db.receiptLines, r), QuantityAt(db.receiptLines, j)) == Sum(db.receiptLines, OnReceipt(r, j))
    {
      LinesOfSum(db.receiptLines, r, QuantityAt(db.receiptLines, j), OnReceipt(r, j));
    }
  }

  lemma {:induction false} ReversedOrderHasLines(db: Db, r: nat, after: Db)
    requires Valid(db) && IsReversal(db, after, r)
    requires |after.poLines| == |db.poLines|
    requires forall j :: 0 <= j < |db.poLines| ==> after.poLines[j].po == db.poLines[j].po
    ensures Orders.HasLines(after.poLines, db.receipts[r].po)
  {
    hide RequisitionRules.RequisitionsOk, StockOk, ImageFits, CountRules.CountsFit, UndoGoods, WithReversal;
    PostedMeansReceived(db.pos, db.poLines, db.receipts, db.receiptLines, r);
    var l :| l in db.poLines && l.po == db.receipts[r].po;
    var j :| 0 <= j < |db.poLines| && db.poLines[j] == l;
    assert after.poLines[j] in after.poLines;
  }

  // In every reachable state reverse_receipt marks the document, adds one mirror row for each of its lines, takes off
  // each key and each order line what it had brought in, derives the order's status, and changes nothing else.
  lemma {:induction false} ReversedReceiptLeaves(db: Db, r: nat, after: Db)
    requires Valid(db) && Stored(db) && ReversedReceipt(db, r) == Ok(after)
    ensures r < |db.receipts| && db.receipts[r].po < |db.pos|
    ensures after.receipts == db.receipts[r := db.receipts[r].(status := Reversed)]
    ensures |after.poLines| == |db.poLines| && forall j :: 0 <= j < |db.poLines| ==>
      after.poLines[j] == db.poLines[j].(received := db.poLines[j].received - Sum(db.receiptLines, OnReceipt(r, j)))
    ensures |after.ledger| >= |db.ledger| && after.ledger[..|db.ledger|] == db.ledger
    ensures AllUndone(db, r, after.ledger[|db.ledger|..])
    ensures forall k :: TakenOff(db, r, after, k)
    ensures var po := db.receipts[r].po; after.pos == db.pos[po := db.pos[po].(status := StatusOf(after.poLines, po))]
    ensures after == db.(receipts := after.receipts, poLines := after.poLines, ledger := after.ledger,
                         balances := after.balances, pos := after.pos,
                         audit := db.audit + [Audit(ReceiptWasReversed, r)])
  {
    hide Valid, Stored, ReversedReceipt, UndoGoods, AllUndone, TakenOff, StatusOf, RowsFit, ImageFits, WithReversal;
    var rows := ReversalRows(db, r, after);
    ReversalEffect(db, after, r);
    ReversalTakesBack(db, r, after);
    RowsUndo(db, r, rows);
    TakesOff(db, r, after);
    ReversedOrderHasLines(db, r, after);
    StatusIs(after.poLines, db.receipts[r].po);
    assert after.ledger[|db.ledger|..] == rows;
  }

  // Why key k cannot give back what the receipt brought in.
  predicate KeyRefusal(db: Db, r: nat, k: Key, e: ErrorCode)
    requires r < |db.receipts|
  {
    var b := BalanceOf(db.balances, k);
    if b.quantity < Sum(db.receiptLines, StockLaws.Brought(db.receipts, r, StockLaws.Quantity, k))
    then e == InventoryNegative
    else
      && b.total < Sum(db.receiptLines, StockLaws.Brought(db.receipts, r, StockLaws.Amount, k))
      && e == InventoryBalanceMismatch
  }

  // The first key in lock order that cannot decides the error.
  ghost predicate FirstKeyRefusal(db: Db, r: nat, e: ErrorCode)
    requires r < |db.receipts|
  {
    exists k :: KeyRefusal(db, r, k, e) && forall j :: Before(j, k) ==> StockLaws.StillHolds(db, r, j)
  }

  lemma {:induction false} ApplyAllErrors(balances: map<Key, Balance>, keys: seq<Key>, direction: int,
          totals: map<Key, Delta>) returns (i: nat)
    requires Ascending(keys) && forall k :: k in keys ==> k in balances && k in totals
    requires ApplyAll(balances, keys, direction, totals).Err?
    ensures i < |keys|
    ensures Apply(balances[keys[i]], direction, totals[keys[i]])
         == Err(ApplyAll(balances, keys, direction, totals).error)
    ensures forall j :: 0 <= j < i ==> Apply(balances[keys[j]], direction, totals[keys[j]]).Ok?
  {
    hide Apply;
    var k0 := keys[0];
    var b := Apply(balances[k0], direction, totals[k0]);
    if b.Err? {
      i := 0;
    } else {
      assert k0 !in keys[1..];
      i := ApplyAllErrors(balances[k0 := b.value], keys[1..], direction, totals);
      forall j | 0 <= j < i + 1 ensures Apply(balances[keys[j]], direction, totals[keys[j]]).Ok? {
        if j > 0 { assert keys[1..][j - 1] == keys[j] && keys[j] != k0; }
      }
      assert keys[1..][i] == keys[i + 1] && keys[i + 1] != k0;
      i := i + 1;
    }
  }

  lemma {:induction false} FirstInLockOrder(keys: seq<Key>, i: nat, j: Key)
    requires Ascending(keys) && i < |keys| && j in keys && Before(j, keys[i])
    ensures exists n :: 0 <= n < i && keys[n] == j
  {
    var n :| 0 <= n < |keys| && keys[n] == j;
  }

  // Applying the aggregate of the rows to one key, as a refusal.
  lemma {:induction false} KeyRefuses(db: Db, r: nat, keys: seq<Key>, rows: seq<Txn>, k: Key, e: ErrorCode)
    requires Valid(db) && ReversibleIn(db, r) && rows == UndoRows(db, r) && Directed(rows, -1)
    requires k in keys && k in KeysOf(rows)
    requires Apply(Upsert(db.balances, keys)[k], -1, Totals(rows, -1, keys)[k]) == Err(e)
    ensures KeyRefusal(db, r, k, e)
  {
    hide Valid, ReversibleIn, UndoRows, Sum;
    StockLaws.UndoRowsTakeBack(db, r, StockLaws.Quantity, k);
    StockLaws.UndoRowsTakeBack(db, r, StockLaws.Amount, k);
    SumEqual(rows, QuantityOn(k), StockLaws.On(StockLaws.Quantity, k));
    SumEqual(rows, AmountOn(k), StockLaws.On(StockLaws.Amount, k));
    DirectedTotals(rows, -1, k);
  }

  lemma {:induction false} UndoRowsOn(db: Db, r: nat, rows: seq<Txn>, keys: seq<Key>)
    requires ReversibleIn(db, r) && rows == UndoRows(db, r)
    requires keys == LockedKeys(db, r)
    ensures Directed(rows, -1) && forall k :: k in keys <==> k in KeysOf(rows)
  {
    UndoRowsReady(db, r);
    var ns := LinesOf(db.receiptLines, r);
    hide ReversibleIn, LinesOf, UndoRows;
    forall k | 0 <= k < |rows| ensures RowReady(db.balances, rows, -1, k) && rows[k].key == keys[k] {
      assert RowUndoes(db, r, ns[k], rows, k);
    }
    ReadyRows(db.balances, rows, -1);
    KeysMatch(rows, keys);
  }

  // The keys a reversal locks.
  function LockedKeys(db: Db, r: nat): seq<Key>
    requires r < |db.receipts|
  {
    LinesOfMembers(db.receiptLines, r);
    KeysFor(db.receiptLines, db.receipts[r].warehouse, LinesOf(db.receiptLines, r))
  }

  lemma {:induction false} UndoErrors(db: Db, r: nat, e: ErrorCode)
    requires ReversibleIn(db, r)
    requires forall n :: 0 <= n < |db.receiptLines| ==> db.receiptLines[n].poLine < |db.poLines|
    requires UndoGoods(db, r) == Err(e)
    ensures LockAndApply(db.balances, LockedKeys(db, r), -1, UndoRows(db, r)) == Err(e)
  {
    hide LockAndApply, ReverseLines;
    PostedLinesReverse(db, r);
  }

  lemma {:induction false} LockErrors(db: Db, r: nat, rows: seq<Txn>, e: ErrorCode)
    requires Valid(db) && ReversibleIn(db, r) && rows == UndoRows(db, r)
    requires LockAndApply(db.balances, LockedKeys(db, r), -1, rows) == Err(e)
    ensures FirstKeyRefusal(db, r, e)
  {
    hide Valid, RowsFit, ImageFits, UndoRows, KeyRefusal, StockLaws.StillHolds, CoveredOn, Apply, LockedKeys, TotalOf;
    var keys := LockedKeys(db, r);
    UndoRowsOn(db, r, rows, keys);
    var sorted, locked, totals := SortKeys(keys), Upsert(db.balances, keys), Totals(rows, -1, keys);
    var i := ApplyAllErrors(locked, sorted, -1, totals);
    KeyRefuses(db, r, keys, rows, sorted[i], e);
    forall j | Before(j, sorted[i]) ensures StockLaws.StillHolds(db, r, j) {
      StockLaws.HeldIsCovered(db, r, j);
      if j in keys {
        FirstInLockOrder(sorted, i, j);
        LockAndApplyAt(db.balances, keys, -1, rows, j);
      }
    }
  }

  // In every reachable state reverse_receipt is refused only for a missing document, one already reversed, or the first
  // key in lock order that no longer holds what the receipt brought in.
  lemma {:induction false} ReversedReceiptRefused(db: Db, r: nat)
    requires Valid(db) && Stored(db) && ReversedReceipt(db, r).Err?
    ensures var e := ReversedReceipt(db, r).error;
      if r >= |db.receipts| then e == ReceiptNotFound
      else if db.receipts[r].status == Reversed then e == ReceiptAlreadyReversed
      else FirstKeyRefusal(db, r, e)
  {
    hide Valid, UndoGoods, RequisitionKeys, OrderKeys, BalanceChecks, FirstKeyRefusal;
    if r < |db.receipts| && db.receipts[r].status == Posted {
      PostedIsReversible(db, r);
      UndoErrors(db, r, ReversedReceipt(db, r).error);
      LockErrors(db, r, UndoRows(db, r), ReversedReceipt(db, r).error);
    }
  }
}
