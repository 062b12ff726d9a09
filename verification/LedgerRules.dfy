/** The ledger is exactly the image of the documents, and the balances are exactly the image of the ledger. */
module LedgerRules {
  import opened Sums
  import opened Sorting
  import opened Tables
  import opened Inventory
  import opened Receipts
  import opened ReceiptRules

  // ---------------------------------------------------------------------------------------------
  // Which rows the documents call for
  // ---------------------------------------------------------------------------------------------

  function PurchaseRow(warehouse: int, l: ReceiptLine, after: int, source: TxnSource): Txn {
    Txn(PurchaseIn, Key(warehouse, l.material), l.quantity, l.price, l.amount, after, source, None)
  }

  function ReversalRow(warehouse: int, l: ReceiptLine, after: int, source: TxnSource, original: Option<nat>): Txn {
    Txn(PurchaseInReversal, Key(warehouse, l.material), -l.quantity, l.price, -l.amount, after, source, original)
  }

  function AdjustRow(warehouse: int, item: CountItem, after: int, source: TxnSource): Txn {
    Txn(if item.difference > 0 then AdjustIn else AdjustOut, Key(warehouse, item.material), item.difference,
        if item.difference > 0 then (if item.rate.Some? then item.rate.value else 0) else item.bookAverage,
        item.amount, after, source, None)
  }

  // Row i is called for by its document, and says what the document says.
  predicate RowFits(receipts: seq<Receipt>, rows: seq<ReceiptLine>, counts: seq<Count>, ledger: seq<Txn>, i: nat)
    requires i < |ledger|
  {
    var t := ledger[i];
    match t.source
    case ReceiptSource(r, n) =>
      && r < |receipts| && n < |rows| && rows[n].receipt == r
      && t == PurchaseRow(receipts[r].warehouse, rows[n], t.after, t.source)
    case ReversalSource(r, n) =>
      && r < |receipts| && n < |rows| && rows[n].receipt == r && receipts[r].status == Reversed
      && t.reversed.Some? && t.reversed.value < i && ledger[t.reversed.value].source == ReceiptSource(r, n)
      && t == ReversalRow(receipts[r].warehouse, rows[n], t.after, t.source, t.reversed)
    case CountSource(c, n) =>
      && c < |counts| && counts[c].status == CountPosted && n < |counts[c].items| && counts[c].items[n].difference != 0
      && t == AdjustRow(counts[c].warehouse, counts[c].items[n], t.after, t.source)
  }

  predicate Recorded(ledger: seq<Txn>, source: TxnSource) {
    exists i :: 0 <= i < |ledger| && ledger[i].source == source
  }

  // A receipt line has its row, and once the receipt is reversed the row that undoes it.
  predicate LineRecorded(receipts: seq<Receipt>, ledger: seq<Txn>, rows: seq<ReceiptLine>, n: nat)
    requires n < |rows|
  {
    && Recorded(ledger, ReceiptSource(rows[n].receipt, n))
    && (rows[n].receipt < |receipts| && receipts[rows[n].receipt].status == Reversed ==>
          Recorded(ledger, ReversalSource(rows[n].receipt, n)))
  }

  predicate CountRecorded(ledger: seq<Txn>, doc: Count, c: nat) {
    doc.status == CountPosted ==>
      forall n :: 0 <= n < |doc.items| && doc.items[n].difference != 0 ==> Recorded(ledger, CountSource(c, n))
  }

  // One row per receipt line, one per line of a reversed receipt, one per differing line of a posted count,
  // and nothing else.
  ghost predicate ImageFits(receipts: seq<Receipt>, rows: seq<ReceiptLine>, counts: seq<Count>, ledger: seq<Txn>) {
    && (forall i :: 0 <= i < |ledger| ==> RowFits(receipts, rows, counts, ledger, i))
    && (forall i, j :: 0 <= i < j < |ledger| ==> ledger[i].source != ledger[j].source)
    && (forall n :: 0 <= n < |rows| ==> LineRecorded(receipts, ledger, rows, n))
    && (forall c :: 0 <= c < |counts| ==> CountRecorded(ledger, counts[c], c))
  }

  // No ledger row is undone twice: the rows that undo are linked injectively to the rows they undo.
  lemma {:induction false} UndoneOnce(receipts: seq<Receipt>, rows: seq<ReceiptLine>, counts: seq<Count>,
          ledger: seq<Txn>, i: nat, j: nat)
    requires ImageFits(receipts, rows, counts, ledger)
    requires i < |ledger| && j < |ledger| && ledger[i].reversed.Some? && ledger[i].reversed == ledger[j].reversed
    ensures i == j
    ensures ledger[i].reversed.value < i && ledger[ledger[i].reversed.value].kind == PurchaseIn
    ensures ledger[i].kind == PurchaseInReversal
    ensures ledger[i].key == ledger[ledger[i].reversed.value].key
    ensures ledger[i].quantity == -ledger[ledger[i].reversed.value].quantity
    ensures ledger[i].amount == -ledger[ledger[i].reversed.value].amount
  {
    assert RowFits(receipts, rows, counts, ledger, i) && RowFits(receipts, rows, counts, ledger, j);
    assert RowFits(receipts, rows, counts, ledger, ledger[i].reversed.value);
    assert ledger[i].source == ledger[j].source;
  }

  // Appending rows the documents call for and that are not there yet.
  lemma {:induction false} AppendFits(receipts: seq<Receipt>, rows: seq<ReceiptLine>, counts: seq<Count>,
          ledger: seq<Txn>, more: seq<Txn>)
    requires forall i :: 0 <= i < |ledger| ==> RowFits(receipts, rows, counts, ledger, i)
    requires forall i, j :: 0 <= i < j < |ledger| ==> ledger[i].source != ledger[j].source
    requires forall i :: |ledger| <= i < |ledger + more| ==> RowFits(receipts, rows, counts, ledger + more, i)
    requires forall i, k :: 0 <= i < |ledger| && 0 <= k < |more| ==> ledger[i].source != more[k].source
    requires forall k, l :: 0 <= k < l < |more| ==> more[k].source != more[l].source
    requires forall n :: 0 <= n < |rows| ==> LineRecorded(receipts, ledger + more, rows, n)
    requires forall c :: 0 <= c < |counts| ==> CountRecorded(ledger + more, counts[c], c)
    ensures ImageFits(receipts, rows, counts, ledger + more)
  {
    var all := ledger + more;
    forall i | 0 <= i < |all| ensures RowFits(receipts, rows, counts, all, i) {
      if i < |ledger| { assert RowFits(receipts, rows, counts, ledger, i); }
    }
    forall i, j | 0 <= i < j < |all| ensures all[i].source != all[j].source {
      if j < |ledger| {
        assert ledger[i].source != ledger[j].source;
      } else if i < |ledger| {
        assert ledger[i].source != more[j - |ledger|].source;
      } else {
        assert more[i - |ledger|].source != more[j - |ledger|].source;
      }
    }
  }

  lemma {:induction false} StillRecorded(ledger: seq<Txn>, more: seq<Txn>, source: TxnSource)
    requires Recorded(ledger, source) || Recorded(more, source)
    ensures Recorded(ledger + more, source)
  {
    if Recorded(ledger, source) {
      var i :| 0 <= i < |ledger| && ledger[i].source == source;
      assert (ledger + more)[i].source == source;
    } else {
      var k :| 0 <= k < |more| && more[k].source == source;
      assert (ledger + more)[|ledger| + k].source == source;
    }
  }

  // ---------------------------------------------------------------------------------------------
  // Locking and applying aggregates is posting the rows
  // ---------------------------------------------------------------------------------------------

  // All rows of one posting go the same way.
  ghost predicate Directed(rows: seq<Txn>, direction: int) {
    && (direction == 1 || direction == -1)
    && forall t :: t in rows ==> direction * t.quantity > 0
  }

  lemma {:induction false} DirectedTotals(rows: seq<Txn>, direction: int, k: Key)
    requires Directed(rows, direction) && k in KeysOf(rows)
    ensures direction * Sum(rows, QuantityOn(k)) > 0
  {
    var t :| t in rows && t.key == k;
    var i :| 0 <= i < |rows| && rows[i] == t;
    var f := QuantityOn(k);
    if direction == 1 {
      SumCovers(rows, f, i);
    } else {
      SumCovers(rows, Minus(f), i);
      SumMinus(rows, f);
    }
  }

  predicate CoveredOn(balances: map<Key, Balance>, rows: seq<Txn>, k: Key) {
    && BalanceOf(balances, k).quantity + Sum(rows, QuantityOn(k)) >= 0
    && BalanceOf(balances, k).total + Sum(rows, AmountOn(k)) >= 0
  }

  lemma {:induction false} ApplyMoves(b: Balance, rows: seq<Txn>, direction: int, k: Key)
    requires Directed(rows, direction) && k in KeysOf(rows)
    ensures Apply(b, direction, TotalOf(rows, direction, k)).Ok? <==>
            b.quantity + Sum(rows, QuantityOn(k)) >= 0 && b.total + Sum(rows, AmountOn(k)) >= 0
    ensures Apply(b, direction, TotalOf(rows, direction, k)).Ok? ==>
            Apply(b, direction, TotalOf(rows, direction, k)).value == After(b, rows, k)
  {
    hide Sum;
    DirectedTotals(rows, direction, k);
    var q, a := Sum(rows, QuantityOn(k)), Sum(rows, AmountOn(k));
    assert b.total - -a == b.total + a && -(-a) == a && -(-q) == q;
  }

  lemma {:induction false} LockAndApplyAt(balances: map<Key, Balance>, keys: seq<Key>, direction: int, rows: seq<Txn>,
          k: Key)
    requires Directed(rows, direction) && k in keys && k in KeysOf(rows)
    ensures var b := Apply(Upsert(balances, keys)[k], direction, Totals(rows, direction, keys)[k]);
            && (b.Ok? <==> CoveredOn(balances, rows, k))
            && (b.Ok? ==> b.value == After(BalanceOf(balances, k), rows, k))
  {
    ApplyMoves(Upsert(balances, keys)[k], rows, direction, k);
  }

  // The aggregated pass over the locked keys fails exactly when some key would go below zero ...
  lemma {:induction false} LockAndApplySucceeds(balances: map<Key, Balance>, keys: seq<Key>, direction: int,
          rows: seq<Txn>)
    requires Directed(rows, direction)
    requires forall k :: k in keys <==> k in KeysOf(rows)
    ensures LockAndApply(balances, keys, direction, rows).Ok? <==> Covered(balances, rows)
  {
    hide Apply, Sum, TotalOf, SortKeys;
    var locked, totals := Upsert(balances, keys), Totals(rows, direction, keys);
    ApplyAllFacts(locked, SortKeys(keys), direction, totals);
    forall k | k in keys ensures Apply(locked[k], direction, totals[k]).Ok? <==> CoveredOn(balances, rows, k) {
      LockAndApplyAt(balances, keys, direction, rows, k);
    }
    assert Covered(balances, rows) <==> forall k :: k in keys ==> CoveredOn(balances, rows, k);
  }

  // ... and otherwise posts exactly the rows.
  lemma {:induction false} LockAndApplyPosts(balances: map<Key, Balance>, keys: seq<Key>, direction: int,
          rows: seq<Txn>)
    requires Directed(rows, direction)
    requires forall k :: k in keys <==> k in KeysOf(rows)
    requires LockAndApply(balances, keys, direction, rows).Ok?
    ensures LockAndApply(balances, keys, direction, rows).value == Post(balances, rows)
  {
    var applied := LockAndApply(balances, keys, direction, rows).value;
    ApplyAllFacts(Upsert(balances, keys), SortKeys(keys), direction, Totals(rows, direction, keys));
    forall k | k in applied ensures applied[k] == After(BalanceOf(balances, k), rows, k) {
      if k in keys { LockAndApplyAt(balances, keys, direction, rows, k); }
    }
    PostIs(balances, rows, applied);
  }

  // ---------------------------------------------------------------------------------------------
  // The rows of a receipt
  // ---------------------------------------------------------------------------------------------

  predicate RowReceives(balances: map<Key, Balance>, warehouse: int, receipt: nat, first: nat, w: Receiving, k: nat)
    requires k < |w.rows| && first + k < |w.lines|
  {
    && w.rows[k] == PurchaseRow(warehouse, w.lines[first + k], w.rows[k].after, ReceiptSource(receipt, first + k))
    && w.lines[first + k].receipt == receipt && Signed(w.rows[k]) && RunsAt(balances, w.rows, k)
  }

  ghost predicate ReceivingRows(balances: map<Key, Balance>, warehouse: int, receipt: nat, first: nat, w: Receiving) {
    && |w.lines| == first + |w.rows|
    && (forall j :: 0 <= j < |w.poLines| ==> w.poLines[j].price >= 0)
    && (forall k :: 0 <= k < |w.rows| ==> RowReceives(balances, warehouse, receipt, first, w, k))
  }

  lemma {:induction false} RunsOn(balances: map<Key, Balance>, rows: seq<Txn>, row: Txn)
    requires row.after == NextAfter(balances, rows, row.key) + row.quantity
    ensures RunsAt(balances, rows + [row], |rows|)
    ensures forall k :: 0 <= k < |rows| && RunsAt(balances, rows, k) ==> RunsAt(balances, rows + [row], k)
  {
    assert (rows + [row])[..|rows| + 1] == rows + [row];
    SumSnoc(rows, row, QuantityOn(row.key));
    forall k | 0 <= k < |rows| && RunsAt(balances, rows, k) ensures RunsAt(balances, rows + [row], k) {
      assert (rows + [row])[..k + 1] == rows[..k + 1];
    }
  }

  lemma {:induction false} ReceiveLineRows(balances: map<Key, Balance>, warehouse: int, receipt: nat, first: nat,
          w: Receiving, item: ReceiveRequest)
    requires ReceivingRows(balances, warehouse, receipt, first, w) && item.poLine < |w.poLines| && item.quantity > 0
    requires ReceiveLine(balances, warehouse, receipt, w, item).Ok?
    ensures ReceivingRows(balances, warehouse, receipt, first, ReceiveLine(balances, warehouse, receipt, w, item).value)
  {
    var r := ReceiveLine(balances, warehouse, receipt, w, item).value;
    RunsOn(balances, w.rows, r.rows[|w.rows|]);
    forall k | 0 <= k < |r.rows| ensures RowReceives(balances, warehouse, receipt, first, r, k) {
      if k < |w.rows| { assert RowReceives(balances, warehouse, receipt, first, w, k); }
    }
  }

  lemma {:induction false} ReceiveLinesRows(balances: map<Key, Balance>, warehouse: int, receipt: nat, first: nat,
          w: Receiving, todo: seq<ReceiveRequest>)
    requires ReceivingRows(balances, warehouse, receipt, first, w)
    requires forall i :: 0 <= i < |todo| ==> todo[i].poLine < |w.poLines| && todo[i].quantity > 0
    requires ReceiveLines(balances, warehouse, receipt, w, todo).Ok?
    ensures ReceivingRows(balances, warehouse, receipt, first,
                          ReceiveLines(balances, warehouse, receipt, w, todo).value)
    decreases |todo|
  {
    if todo != [] {
      ReceiveLineRows(balances, warehouse, receipt, first, w, todo[0]);
      ReceiveLinesRows(balances, warehouse, receipt, first, ReceiveLine(balances, warehouse, receipt, w, todo[0]).value,
                       todo[1..]);
    }
  }

  // Rows that are written line by line, running on, posted in one aggregate: the stock stays in order.
  ghost predicate PostsRows(balances: map<Key, Balance>, rows: seq<Txn>, applied: map<Key, Balance>) {
    && Running(balances, rows) && Covered(balances, rows) && OneWay(rows)
    && (forall t :: t in rows ==> Signed(t))
    && applied == Post(balances, rows)
  }

  predicate RowReady(balances: map<Key, Balance>, rows: seq<Txn>, direction: int, k: nat)
    requires k < |rows|
  {
    RunsAt(balances, rows, k) && Signed(rows[k]) && direction * rows[k].quantity > 0
  }

  lemma {:induction false} KeysMatch(rows: seq<Txn>, keys: seq<Key>)
    requires |rows| == |keys| && forall k :: 0 <= k < |rows| ==> rows[k].key == keys[k]
    ensures forall key :: key in keys <==> key in KeysOf(rows)
  {
    forall key | key in keys ensures key in KeysOf(rows) {
      var k :| 0 <= k < |keys| && keys[k] == key;
      assert rows[k] in rows;
    }
  }

  lemma {:induction false} ReadyRows(balances: map<Key, Balance>, rows: seq<Txn>, direction: int)
    requires direction == 1 || direction == -1
    requires forall k :: 0 <= k < |rows| ==> RowReady(balances, rows, direction, k)
    ensures Directed(rows, direction) && Running(balances, rows) && OneWay(rows)
    ensures forall t :: t in rows ==> Signed(t)
  {
    forall t | t in rows ensures Signed(t) && direction * t.quantity > 0 {
      var k :| 0 <= k < |rows| && rows[k] == t;
      assert RowReady(balances, rows, direction, k);
    }
    forall k | 0 <= k < |rows| ensures RunsAt(balances, rows, k) { assert RowReady(balances, rows, direction, k); }
  }

  lemma {:induction false} AppliedRowsPost(balances: map<Key, Balance>, keys: seq<Key>, direction: int, rows: seq<Txn>)
    requires direction == 1 || direction == -1
    requires forall k :: 0 <= k < |rows| ==> RowReady(balances, rows, direction, k)
    requires |rows| == |keys| && forall k :: 0 <= k < |rows| ==> rows[k].key == keys[k]
    ensures LockAndApply(balances, keys, direction, rows).Ok? <==> Covered(balances, rows)
    ensures LockAndApply(balances, keys, direction, rows).Ok? ==>
      PostsRows(balances, rows, LockAndApply(balances, keys, direction, rows).value)
  {
    ReadyRows(balances, rows, direction);
    KeysMatch(rows, keys);
    LockAndApplySucceeds(balances, keys, direction, rows);
    if LockAndApply(balances, keys, direction, rows).Ok? { LockAndApplyPosts(balances, keys, direction, rows); }
  }

  lemma {:induction false} ReceivedRowsReady(db: Db, warehouse: int, todo: seq<ReceiveRequest>, w: Receiving)
    requires forall i :: 0 <= i < |todo| ==> todo[i].poLine < |db.poLines| && todo[i].quantity > 0
    requires forall j :: 0 <= j < |db.poLines| ==> db.poLines[j].price >= 0
    requires ReceiveLines(db.balances, warehouse, |db.receipts|, Receiving(db.poLines, db.receiptLines, []), todo)
         == Ok(w)
    ensures ReceivingRows(db.balances, warehouse, |db.receipts|, |db.receiptLines|, w)
    ensures |w.rows| == |todo|
    ensures forall k :: 0 <= k < |w.rows| ==> RowReady(db.balances, w.rows, 1, k)
    ensures forall k :: 0 <= k < |w.rows| ==> w.rows[k].key == KeysOrdered(db.poLines, warehouse, todo)[k]
  {
    var start := Receiving(db.poLines, db.receiptLines, []);
    ReceiveLinesRows(db.balances, warehouse, |db.receipts|, |db.receiptLines|, start, todo);
    ReceiveLinesWritten(db.balances, warehouse, |db.receipts|, start, todo);
    forall k | 0 <= k < |w.rows|
      ensures RowReady(db.balances, w.rows, 1, k)
      ensures w.rows[k].key == KeysOrdered(db.poLines, warehouse, todo)[k]
    {
      assert RowReceives(db.balances, warehouse, |db.receipts|, |db.receiptLines|, w, k);
      assert WrittenAs(db.poLines, |db.receipts|, w.lines, |db.receiptLines|, todo[k], k);
    }
  }

  lemma {:induction false} ReceiveGoodsPosts(db: Db, warehouse: int, todo: seq<ReceiveRequest>)
    requires forall i :: 0 <= i < |todo| ==> todo[i].poLine < |db.poLines| && todo[i].quantity > 0
    requires forall j :: 0 <= j < |db.poLines| ==> db.poLines[j].price >= 0
    requires ReceiveGoods(db, warehouse, todo).Ok?
    ensures var r := ReceiveGoods(db, warehouse, todo).value;
      && ReceivingRows(db.balances, warehouse, |db.receipts|, |db.receiptLines|, r.w)
      && PostsRows(db.balances, r.w.rows, r.balances)
  {
    var r := ReceiveGoods(db, warehouse, todo).value;
    ReceivedRowsReady(db, warehouse, todo, r.w);
    AppliedRowsPost(db.balances, KeysOrdered(db.poLines, warehouse, todo), 1, r.w.rows);
  }

  lemma {:induction false} OldRowFits(receipts: seq<Receipt>, rows: seq<ReceiptLine>, counts: seq<Count>,
          ledger: seq<Txn>, i: nat, receipts2: seq<Receipt>, rows2: seq<ReceiptLine>)
    requires i < |ledger| && RowFits(receipts, rows, counts, ledger, i)
    requires |receipts| <= |receipts2| && forall r :: 0 <= r < |receipts| ==>
      receipts2[r].warehouse == receipts[r].warehouse && (receipts[r].status == Reversed ==>
        receipts2[r].status == Reversed)
    requires |rows| <= |rows2| && rows2[..|rows|] == rows
    ensures RowFits(receipts2, rows2, counts, ledger, i)
  {
    forall n | 0 <= n < |rows| ensures rows2[n] == rows[n] { assert rows2[..|rows|][n] == rows[n]; }
  }

  lemma {:induction false} CountsStayRecorded(counts: seq<Count>, ledger: seq<Txn>, more: seq<Txn>)
    requires forall c :: 0 <= c < |counts| ==> CountRecorded(ledger, counts[c], c)
    ensures forall c :: 0 <= c < |counts| ==> CountRecorded(ledger + more, counts[c], c)
  {
    forall c, n | 0 <= c < |counts| && counts[c].status == CountPosted
                  && 0 <= n < |counts[c].items| && counts[c].items[n].difference != 0
      ensures Recorded(ledger + more, CountSource(c, n))
    {
      assert CountRecorded(ledger, counts[c], c);
      StillRecorded(ledger, more, CountSource(c, n));
    }
  }

  lemma {:induction false} ReceiptKeepsImage(receipts: seq<Receipt>, rows: seq<ReceiptLine>, counts: seq<Count>,
          ledger: seq<Txn>, balances: map<Key, Balance>, doc: Receipt, w: Receiving)
    requires ImageFits(receipts, rows, counts, ledger)
    requires forall n :: 0 <= n < |rows| ==> rows[n].receipt < |receipts|
    requires doc.status == Posted && |rows| <= |w.lines| && w.lines[..|rows|] == rows
    requires ReceivingRows(balances, doc.warehouse, |receipts|, |rows|, w)
    ensures ImageFits(receipts + [doc], w.lines, counts, ledger + w.rows)
  {
    var receipts2, all := receipts + [doc], ledger + w.rows;
    forall n | 0 <= n < |rows| ensures w.lines[n] == rows[n] { assert w.lines[..|rows|][n] == rows[n]; }
    forall i | 0 <= i < |ledger|
      ensures RowFits(receipts2, w.lines, counts, ledger, i)
      ensures !ledger[i].source.CountSource? ==> ledger[i].source.receipt < |receipts|
    {
      assert RowFits(receipts, rows, counts, ledger, i);
      OldRowFits(receipts, rows, counts, ledger, i, receipts2, w.lines);
    }
    forall k | 0 <= k < |w.rows| ensures w.rows[k].source == ReceiptSource(|receipts|, |rows| + k) {
      assert RowReceives(balances, doc.warehouse, |receipts|, |rows|, w, k);
    }
    forall i | |ledger| <= i < |all| ensures RowFits(receipts2, w.lines, counts, all, i) {
      assert RowReceives(balances, doc.warehouse, |receipts|, |rows|, w, i - |ledger|);
    }
    forall n | 0 <= n < |w.lines| ensures LineRecorded(receipts2, all, w.lines, n) {
      if n < |rows| {
        assert LineRecorded(receipts, ledger, rows, n);
        StillRecorded(ledger, w.rows, ReceiptSource(rows[n].receipt, n));
        if Recorded(ledger, ReversalSource(rows[n].receipt, n)) {
          StillRecorded(ledger, w.rows, ReversalSource(rows[n].receipt, n));
        }
      } else {
        assert RowReceives(balances, doc.warehouse, |receipts|, |rows|, w, n - |rows|);
        StillRecorded(ledger, w.rows, ReceiptSource(|receipts|, n));
      }
    }
    CountsStayRecorded(counts, ledger, w.rows);
    AppendFits(receipts2, w.lines, counts, ledger, w.rows);
  }

  // ---------------------------------------------------------------------------------------------
  // The rows of a reversal
  // ---------------------------------------------------------------------------------------------

  // What the tables say of a receipt that is about to be reversed.
  ghost predicate ReversibleIn(db: Db, receipt: nat) {
    && RowsFit(db.poLines, db.receipts, db.receiptLines)
    && ImageFits(db.receipts, db.receiptLines, db.counts, db.ledger)
    && (forall j :: 0 <= j < |db.poLines| ==> db.poLines[j].price >= 0)
    && receipt < |db.receipts| && db.receipts[receipt].status == Posted
  }

  predicate RowUndoes(db: Db, receipt: nat, n: nat, rows: seq<Txn>, k: nat)
    requires receipt < |db.receipts| && n < |db.receiptLines| && k < |rows|
  {
    && rows[k].reversed.Some? && rows[k].reversed.value < |db.ledger|
    && db.ledger[rows[k].reversed.value].source == ReceiptSource(receipt, n)
    && rows[k] == ReversalRow(db.receipts[receipt].warehouse, db.receiptLines[n], rows[k].after,
                              ReversalSource(receipt, n), rows[k].reversed)
    && RowReady(db.balances, rows, -1, k)
  }

  ghost predicate UndoingRows(db: Db, receipt: nat, done: seq<nat>, w: Reversing)
    requires receipt < |db.receipts|
  {
    && |w.rows| == |done|
    && (forall k :: 0 <= k < |done| ==> done[k] < |db.receiptLines| && RowUndoes(db, receipt, done[k], w.rows, k))
    && TakenBack(db.poLines, w.poLines, db.receiptLines, done)
  }

  // The row a line was posted with is found, and nothing has undone it yet.
  lemma {:induction false} OriginalFound(db: Db, receipt: nat, done: seq<nat>, w: Reversing, n: nat)
    requires ReversibleIn(db, receipt) && UndoingRows(db, receipt, done, w)
    requires n < |db.receiptLines| && db.receiptLines[n].receipt == receipt && n !in done
    ensures FindRow(db.ledger, ReceiptSource(receipt, n)).Some?
    ensures var o := FindRow(db.ledger, ReceiptSource(receipt, n)).value;
            && !IsReversed(db.ledger + w.rows, o)
            && db.ledger[o] == PurchaseRow(db.receipts[receipt].warehouse, db.receiptLines[n], db.ledger[o].after,
                                           ReceiptSource(receipt, n))
  {
    assert LineRecorded(db.receipts, db.ledger, db.receiptLines, n);
    var o := FindRow(db.ledger, ReceiptSource(receipt, n)).value;
    assert RowFits(db.receipts, db.receiptLines, db.counts, db.ledger, o);
    var all := db.ledger + w.rows;
    forall i | 0 <= i < |all| ensures all[i].reversed != Some(o) {
      if i < |db.ledger| {
        assert RowFits(db.receipts, db.receiptLines, db.counts, db.ledger, i);
      } else {
        var k := i - |db.ledger|;
        assert RowUndoes(db, receipt, done[k], w.rows, k) && done[k] in done;
      }
    }
  }

  // The received-quantity guard holds: what was received on the order line includes this receipt line.
  lemma {:induction false} StillReceived(db: Db, receipt: nat, done: seq<nat>, w: Reversing, n: nat, rest: seq<nat>)
    requires ReversibleIn(db, receipt) && UndoingRows(db, receipt, done, w)
    requires done + [n] + rest == LinesOf(db.receiptLines, receipt)
    ensures n < |db.receiptLines| && db.receiptLines[n].receipt == receipt && db.receiptLines[n].poLine < |w.poLines|
    ensures w.poLines[db.receiptLines[n].poLine].received >= db.receiptLines[n].quantity
  {
    var all, lines := done + [n] + rest, db.receiptLines;
    LinesOfMembers(lines, receipt);
    assert all[|done|] == n;
    assert ReceiptLineFits(db.poLines, db.receipts, lines[n]);
    var j := lines[n].poLine;
    ReversalReceived(db.poLines, db.receipts, lines, receipt, j);
    SumConcat<nat>(done + [n], rest, QuantityAt(lines, j));
    SumSnoc<nat>(done, n, QuantityAt(lines, j));
    forall x: nat | x in rest ensures QuantityAt(lines, j)(x) >= 0 {
      assert x in all;
      assert ReceiptLineFits(db.poLines, db.receipts, lines[x]);
    }
    SumNonNegative<nat>(rest, QuantityAt(lines, j));
  }

  lemma {:induction false} UndoneRowReady(db: Db, receipt: nat, done: seq<nat>, w: Reversing, n: nat)
    requires ReversibleIn(db, receipt) && UndoingRows(db, receipt, done, w)
    requires n < |db.receiptLines| && db.receiptLines[n].receipt == receipt && n !in done
    requires db.receiptLines[n].poLine < |w.poLines|
    requires w.poLines[db.receiptLines[n].poLine].received >= db.receiptLines[n].quantity
    ensures ReverseLine(db, receipt, w, n).Ok?
    ensures var r := ReverseLine(db, receipt, w, n).value;
            && |r.rows| == |w.rows| + 1 && r.rows[..|w.rows|] == w.rows && RowUndoes(db, receipt, n, r.rows, |w.rows|)
  {
    OriginalFound(db, receipt, done, w, n);
    assert ReceiptLineFits(db.poLines, db.receipts, db.receiptLines[n]);
    var r := ReverseLine(db, receipt, w, n).value;
    RunsOn(db.balances, w.rows, r.rows[|w.rows|]);
  }

  lemma {:induction false} OneMoreTakenBack(base: seq<PoLine>, poLines: seq<PoLine>, lines: seq<ReceiptLine>,
          done: seq<nat>, n: nat)
    requires TakenBack(base, poLines, lines, done) && n < |lines| && lines[n].poLine < |poLines|
    ensures var j := lines[n].poLine;
            TakenBack(base, poLines[j := poLines[j].(received := poLines[j].received - lines[n].quantity)], lines,
                      done + [n])
  {
    forall j | 0 <= j < |base|
      ensures Sum(done + [n], QuantityAt(lines, j)) == Sum(done, QuantityAt(lines, j)) + QuantityAt(lines, j)(n)
    {
      SumSnoc<nat>(done, n, QuantityAt(lines, j));
    }
  }

  lemma {:induction false} ReverseLineWorks(db: Db, receipt: nat, done: seq<nat>, w: Reversing, n: nat, rest: seq<nat>)
    requires ReversibleIn(db, receipt) && UndoingRows(db, receipt, done, w)
    requires done + [n] + rest == LinesOf(db.receiptLines, receipt) && n !in done
    ensures n < |db.receiptLines| && db.receiptLines[n].poLine < |w.poLines| && ReverseLine(db, receipt, w, n).Ok?
    ensures UndoingRows(db, receipt, done + [n], ReverseLine(db, receipt, w, n).value)
  {
    hide TakenBack, LinesOf;
    StillReceived(db, receipt, done, w, n, rest);
    UndoneRowReady(db, receipt, done, w, n);
    var r := ReverseLine(db, receipt, w, n).value;
    RunsOn(db.balances, w.rows, r.rows[|w.rows|]);
    assert r.rows == w.rows + [r.rows[|w.rows|]];
    forall k | 0 <= k < |done + [n]|
      ensures (done + [n])[k] < |db.receiptLines| && RowUndoes(db, receipt, (done + [n])[k], r.rows, k)
    {
      if k < |done| { assert RowUndoes(db, receipt, done[k], w.rows, k); }
    }
    ReverseLineTakesBack(db, receipt, w, n);
    OneMoreTakenBack(db.poLines, w.poLines, db.receiptLines, done, n);
  }

  predicate DistinctPositions(ns: seq<nat>) {
    forall i, j :: 0 <= i < j < |ns| ==> ns[i] != ns[j]
  }

  lemma {:induction false} NextPosition(done: seq<nat>, ns: seq<nat>)
    requires ns != [] && DistinctPositions(done + ns)
    ensures ns[0] !in done && done + ns == done + [ns[0]] + ns[1..]
  {
    assert (done + ns)[|done|] == ns[0];
    forall k | 0 <= k < |done| ensures done[k] != ns[0] { assert (done + ns)[k] == done[k]; }
  }

  lemma {:induction false} ReverseLinesWork(db: Db, receipt: nat, done: seq<nat>, w: Reversing, ns: seq<nat>)
    requires ReversibleIn(db, receipt) && UndoingRows(db, receipt, done, w)
    requires done + ns == LinesOf(db.receiptLines, receipt) && DistinctPositions(done + ns)
    requires forall i :: 0 <= i < |ns| ==> ns[i] < |db.receiptLines| && db.receiptLines[ns[i]].poLine < |w.poLines|
    ensures ReverseLines(db, receipt, w, ns).Ok?
    ensures UndoingRows(db, receipt, done + ns, ReverseLines(db, receipt, w, ns).value)
    decreases |ns|
  {
    hide UndoingRows, LinesOf;
    if ns == [] {
      assert done + ns == done;
    } else {
      NextPosition(done, ns);
      ReverseLineWorks(db, receipt, done, w, ns[0], ns[1..]);
      ReverseLinesWork(db, receipt, done + [ns[0]], ReverseLine(db, receipt, w, ns[0]).value, ns[1..]);
    }
  }

  lemma {:induction false} ChosenDistinct(lines: seq<ReceiptLine>, r: nat, key: nat -> int)
    requires forall m, n :: 0 <= m < n < |lines| && lines[m].receipt == r && lines[n].receipt == r ==> key(m) != key(n)
    ensures DistinctOn<nat>(Chosen(lines, r), key)
  {
    if lines != [] {
      var n := |lines| - 1;
      ChosenDistinct(lines[..n], r, key);
      forall i | 0 <= i < |Chosen(lines[..n], r)| && lines[n].receipt == r
        ensures key(Chosen(lines[..n], r)[i]) != key(n)
      {
        assert Chosen(lines[..n], r)[i] in Chosen(lines[..n], r);
      }
    }
  }

  lemma {:induction false} LinesOfDistinct(poLines: seq<PoLine>, receipts: seq<Receipt>, rows: seq<ReceiptLine>, r: nat)
    requires RowsFit(poLines, receipts, rows)
    ensures DistinctPositions(LinesOf(rows, r))
  {
    forall m, n | 0 <= m < n < |rows| && rows[m].receipt == r && rows[n].receipt == r
      ensures PoLineOf(rows)(m) != PoLineOf(rows)(n)
    {
      assert !SameSlot(rows[m], rows[n]);
    }
    ChosenDistinct(rows, r, PoLineOf(rows));
    SortKeepsDistinct<nat>(Chosen(rows, r), PoLineOf(rows));
    var ns, key := LinesOf(rows, r), PoLineOf(rows);
    forall i, j | 0 <= i < j < |ns| ensures ns[i] != ns[j] { assert key(ns[i]) != key(ns[j]); }
  }

  // Reversing the lines of a posted receipt never fails: neither the quantity guard, nor the lookup of the original
  // row, nor the already-reversed check, nor the sign checks reject it.
  lemma {:induction false} PostedLinesReverse(db: Db, receipt: nat)
    requires ReversibleIn(db, receipt)
    ensures var ns := LinesOf(db.receiptLines, receipt);
      && (forall i :: 0 <= i < |ns| ==> ns[i] < |db.receiptLines| && db.receiptLines[ns[i]].poLine < |db.poLines|)
      && ReverseLines(db, receipt, Reversing(db.poLines, []), ns).Ok?
      && UndoingRows(db, receipt, ns, ReverseLines(db, receipt, Reversing(db.poLines, []), ns).value)
  {
    var ns := LinesOf(db.receiptLines, receipt);
    LinesOfMembers(db.receiptLines, receipt);
    LinesOfDistinct(db.poLines, db.receipts, db.receiptLines, receipt);
    forall i | 0 <= i < |ns| ensures db.receiptLines[ns[i]].poLine < |db.poLines| {
      assert ReceiptLineFits(db.poLines, db.receipts, db.receiptLines[ns[i]]);
    }
    assert [] + ns == ns;
    ReverseLinesWork(db, receipt, [], Reversing(db.poLines, []), ns);
  }

  function UndoRows(db: Db, receipt: nat): seq<Txn>
    requires ReversibleIn(db, receipt)
  {
    PostedLinesReverse(db, receipt);
    ReverseLines(db, receipt, Reversing(db.poLines, []), LinesOf(db.receiptLines, receipt)).value.rows
  }

  lemma {:induction false} UndoRowsReady(db: Db, receipt: nat)
    requires ReversibleIn(db, receipt)
    ensures var ns, rows := LinesOf(db.receiptLines, receipt), UndoRows(db, receipt);
      && |rows| == |ns|
      && forall k :: 0 <= k < |rows| ==> ns[k] < |db.receiptLines| && RowUndoes(db, receipt, ns[k], rows, k)
  {
    PostedLinesReverse(db, receipt);
  }

  lemma {:induction false} PoLinesInRange(db: Db)
    requires RowsFit(db.poLines, db.receipts, db.receiptLines)
    ensures forall n :: 0 <= n < |db.receiptLines| ==> db.receiptLines[n].poLine < |db.poLines|
  {
    forall n | 0 <= n < |db.receiptLines| ensures db.receiptLines[n].poLine < |db.poLines| {
      assert ReceiptLineFits(db.poLines, db.receipts, db.receiptLines[n]);
    }
  }

  // So a reversal fails exactly when some key can no longer bear it.
  lemma {:induction false} UndoGoodsPosts(db: Db, receipt: nat)
    requires ReversibleIn(db, receipt)
    ensures forall n :: 0 <= n < |db.receiptLines| ==> db.receiptLines[n].poLine < |db.poLines|
    ensures UndoGoods(db, receipt).Ok? <==> Covered(db.balances, UndoRows(db, receipt))
    ensures UndoGoods(db, receipt).Ok? ==> UndoGoods(db, receipt).value.w.rows == UndoRows(db, receipt)
    ensures UndoGoods(db, receipt).Ok? ==>
      PostsRows(db.balances, UndoRows(db, receipt), UndoGoods(db, receipt).value.balances)
  {
    hide ReverseLines, LockAndApply, PostsRows, Covered, RowUndoes;
    PoLinesInRange(db);
    PostedLinesReverse(db, receipt);
    UndoRowsReady(db, receipt);
    UndoRowsApply(db, receipt, LinesOf(db.receiptLines, receipt), UndoRows(db, receipt));
  }

  lemma {:induction false} UndoRowsApply(db: Db, receipt: nat, ns: seq<nat>, rows: seq<Txn>)
    requires receipt < |db.receipts| && |rows| == |ns|
    requires forall k :: 0 <= k < |rows| ==> ns[k] < |db.receiptLines| && RowUndoes(db, receipt, ns[k], rows, k)
    ensures var applied := LockAndApply(db.balances, KeysFor(db.receiptLines, db.receipts[receipt].warehouse, ns), -1,
                                        rows);
            (applied.Ok? <==> Covered(db.balances, rows)) && (applied.Ok? ==>
              PostsRows(db.balances, rows, applied.value))
  {
    var keys := KeysFor(db.receiptLines, db.receipts[receipt].warehouse, ns);
    forall k | 0 <= k < |rows| ensures RowReady(db.balances, rows, -1, k) && rows[k].key == keys[k] {
      assert RowUndoes(db, receipt, ns[k], rows, k);
    }
    AppliedRowsPost(db.balances, keys, -1, rows);
  }

  lemma {:induction false} UndoRowFits(db: Db, receipt: nat, receipts2: seq<Receipt>, n: nat, rows: seq<Txn>, k: nat)
    requires receipt < |db.receipts| && receipts2 == db.receipts[receipt := db.receipts[receipt].(status := Reversed)]
    requires n < |db.receiptLines| && db.receiptLines[n].receipt == receipt
    requires k < |rows| && RowUndoes(db, receipt, n, rows, k)
    ensures RowFits(receipts2, db.receiptLines, db.counts, db.ledger + rows, |db.ledger| + k)
    ensures rows[k].source == ReversalSource(receipt, n)
  {
  }

  lemma {:induction false} UndoRowsFit(db: Db, receipt: nat, receipts2: seq<Receipt>, ns: seq<nat>, rows: seq<Txn>)
    requires receipt < |db.receipts| && receipts2 == db.receipts[receipt := db.receipts[receipt].(status := Reversed)]
    requires |rows| == |ns|
    requires forall k :: 0 <= k < |rows| ==>
      ns[k] < |db.receiptLines| && db.receiptLines[ns[k]].receipt == receipt && RowUndoes(db, receipt, ns[k], rows, k)
    ensures forall i :: |db.ledger| <= i < |db.ledger + rows| ==>
      RowFits(receipts2, db.receiptLines, db.counts, db.ledger + rows, i)
    ensures forall k :: 0 <= k < |rows| ==> rows[k].source == ReversalSource(receipt, ns[k])
  {
    forall i | |db.ledger| <= i < |db.ledger + rows|
      ensures RowFits(receipts2, db.receiptLines, db.counts, db.ledger + rows, i)
    {
      UndoRowFits(db, receipt, receipts2, ns[i - |db.ledger|], rows, i - |db.ledger|);
    }
    forall k | 0 <= k < |rows| ensures rows[k].source == ReversalSource(receipt, ns[k]) {
      assert RowUndoes(db, receipt, ns[k], rows, k);
    }
  }

  lemma {:induction false} ReversalKeepsImage(db: Db, receipt: nat, ns: seq<nat>, rows: seq<Txn>)
    requires ReversibleIn(db, receipt) && ns == LinesOf(db.receiptLines, receipt) && |rows| == |ns|
    requires forall k :: 0 <= k < |rows| ==> ns[k] < |db.receiptLines| && RowUndoes(db, receipt, ns[k], rows, k)
    ensures ImageFits(db.receipts[receipt := db.receipts[receipt].(status := Reversed)], db.receiptLines, db.counts,
                      db.ledger + rows)
  {
    hide RowUndoes, RowFits, LineRecorded, CountRecorded, RowsFit;
    var receipts2 := db.receipts[receipt := db.receipts[receipt].(status := Reversed)];
    LinesOfMembers(db.receiptLines, receipt);
    LinesOfDistinct(db.poLines, db.receipts, db.receiptLines, receipt);
    OldRowsFit(db, receipt);
    UndoRowsFit(db, receipt, receipts2, ns, rows);
    forall n | 0 <= n < |db.receiptLines| ensures LineRecorded(receipts2, db.ledger + rows, db.receiptLines, n) {
      LineStaysRecorded(db, receipt, rows, n);
    }
    CountsStayRecorded(db.counts, db.ledger, rows);
    AppendFits(receipts2, db.receiptLines, db.counts, db.ledger, rows);
  }

  lemma {:induction false} OldRowsFit(db: Db, receipt: nat)
    requires ReversibleIn(db, receipt)
    ensures var receipts2 := db.receipts[receipt := db.receipts[receipt].(status := Reversed)];
      forall i :: 0 <= i < |db.ledger| ==>
        && RowFits(receipts2, db.receiptLines, db.counts, db.ledger, i)
        && (db.ledger[i].source.ReversalSource? ==> db.ledger[i].source.receipt != receipt)
  {
    var receipts2 := db.receipts[receipt := db.receipts[receipt].(status := Reversed)];
    forall i | 0 <= i < |db.ledger|
      ensures RowFits(receipts2, db.receiptLines, db.counts, db.ledger, i)
      ensures db.ledger[i].source.ReversalSource? ==> db.ledger[i].source.receipt != receipt
    {
      assert RowFits(db.receipts, db.receiptLines, db.counts, db.ledger, i);
      OldRowFits(db.receipts, db.receiptLines, db.counts, db.ledger, i, receipts2, db.receiptLines);
    }
  }

  lemma {:induction false} LineStaysRecorded(db: Db, receipt: nat, more: seq<Txn>, n: nat)
    requires receipt < |db.receipts| && n < |db.receiptLines|
    requires LineRecorded(db.receipts, db.ledger, db.receiptLines, n)
    requires |more| == |LinesOf(db.receiptLines, receipt)|
    requires forall k :: 0 <= k < |more| ==>
      more[k].source == ReversalSource(receipt, LinesOf(db.receiptLines, receipt)[k])
    ensures LineRecorded(db.receipts[receipt := db.receipts[receipt].(status := Reversed)], db.ledger + more,
                         db.receiptLines, n)
  {
    var r, ns := db.receiptLines[n].receipt, LinesOf(db.receiptLines, receipt);
    StillRecorded(db.ledger, more, ReceiptSource(r, n));
    if r == receipt {
      LinesOfMembers(db.receiptLines, receipt);
      assert n in ns;
      var k :| 0 <= k < |ns| && ns[k] == n;
      assert more[k].source == ReversalSource(r, n);
      StillRecorded(db.ledger, more, ReversalSource(r, n));
    } else if Recorded(db.ledger, ReversalSource(r, n)) {
      StillRecorded(db.ledger, more, ReversalSource(r, n));
    }
  }
}
