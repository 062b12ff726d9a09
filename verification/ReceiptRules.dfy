/** Received quantities and order statuses: both are determined by the posted receipts, after every operation. */
module ReceiptRules {
  import opened Sums
  import opened Sorting
  import opened Money
  import opened Tables
  import opened Receipts
  import opened OrderRules
  import Orders

  // ---------------------------------------------------------------------------------------------
  // The rules
  // ---------------------------------------------------------------------------------------------

  // What a receipt line contributes to order line j: nothing once its receipt is reversed.
  function PostedInto(receipts: seq<Receipt>, j: nat): ReceiptLine -> int {
    (x: ReceiptLine) =>
      if x.poLine == j && x.receipt < |receipts| && receipts[x.receipt].status == Posted then x.quantity else 0
  }

  predicate ReceiptLineFits(poLines: seq<PoLine>, receipts: seq<Receipt>, x: ReceiptLine) {
    && x.receipt < |receipts| && x.poLine < |poLines| && x.quantity > 0
    && poLines[x.poLine].po == receipts[x.receipt].po
    && x.material == poLines[x.poLine].material && x.price == poLines[x.poLine].price
    && x.amount == LineAmount(x.quantity, x.price)
  }

  predicate SameSlot(x: ReceiptLine, y: ReceiptLine) {
    x.receipt == y.receipt && x.poLine == y.poLine
  }

  predicate ReceivedFits(poLines: seq<PoLine>, receipts: seq<Receipt>, rows: seq<ReceiptLine>, j: nat)
    requires j < |poLines|
  {
    0 <= poLines[j].received <= poLines[j].ordered && poLines[j].received == Sum(rows, PostedInto(receipts, j))
  }

  predicate ReceiptFits(pos: seq<Po>, receipts: seq<Receipt>, rows: seq<ReceiptLine>, r: nat)
    requires r < |receipts|
  {
    receipts[r].po < |pos| && exists n :: 0 <= n < |rows| && rows[n].receipt == r
  }

  predicate NothingReceived(poLines: seq<PoLine>, po: nat) {
    forall j :: 0 <= j < |poLines| && poLines[j].po == po ==> poLines[j].received == 0
  }

  // Confirmed, partially received and received are functions of the line quantities; a draft or cancelled order
  // has nothing received.
  predicate PoStatusFits(status: PoStatus, poLines: seq<PoLine>, po: nat) {
    match status
    case PoDraft => NothingReceived(poLines, po)
    case PoCancelled => NothingReceived(poLines, po)
    case _ => status == StatusFor(poLines, po)
  }

  ghost predicate RowsFit(poLines: seq<PoLine>, receipts: seq<Receipt>, rows: seq<ReceiptLine>) {
    && (forall n :: 0 <= n < |rows| ==> ReceiptLineFits(poLines, receipts, rows[n]))
    && (forall m, n :: 0 <= m < n < |rows| ==> !SameSlot(rows[m], rows[n]))
    && (forall j :: 0 <= j < |poLines| ==> ReceivedFits(poLines, receipts, rows, j))
  }

  ghost predicate ReceiptsFit(pos: seq<Po>, poLines: seq<PoLine>, receipts: seq<Receipt>, rows: seq<ReceiptLine>) {
    && RowsFit(poLines, receipts, rows)
    && (forall r :: 0 <= r < |receipts| ==> ReceiptFits(pos, receipts, rows, r))
    && (forall po :: 0 <= po < |pos| ==> PoStatusFits(pos[po].status, poLines, po))
  }

  lemma {:induction false} ReceiptKeysFollow(pos: seq<Po>, poLines: seq<PoLine>, receipts: seq<Receipt>,
          rows: seq<ReceiptLine>)
    requires ReceiptsFit(pos, poLines, receipts, rows)
    ensures ReceiptKeys(pos, poLines, receipts, rows)
  {
    forall r | 0 <= r < |receipts| ensures receipts[r].po < |pos| { assert ReceiptFits(pos, receipts, rows, r); }
    forall n | 0 <= n < |rows|
      ensures rows[n].receipt < |receipts| && rows[n].poLine < |poLines| && rows[n].quantity > 0
    {
      assert ReceiptLineFits(poLines, receipts, rows[n]);
    }
  }

  // A posted receipt means something was received on its order, so the order is neither draft nor cancelled.
  lemma {:induction false} PostedMeansReceived(pos: seq<Po>, poLines: seq<PoLine>, receipts: seq<Receipt>,
          rows: seq<ReceiptLine>, r: nat)
    requires ReceiptsFit(pos, poLines, receipts, rows) && r < |receipts| && receipts[r].status == Posted
    ensures receipts[r].po < |pos| && !NothingReceived(poLines, receipts[r].po)
    ensures pos[receipts[r].po].status == PoPartiallyReceived || pos[receipts[r].po].status == PoReceived
  {
    assert ReceiptFits(pos, receipts, rows, r);
    var po := receipts[r].po;
    var n :| 0 <= n < |rows| && rows[n].receipt == r;
    forall x | x in rows ensures PostedInto(receipts, rows[n].poLine)(x) >= 0 {
      var i :| 0 <= i < |rows| && rows[i] == x;
      assert ReceiptLineFits(poLines, receipts, rows[i]);
    }
    SumCovers(rows, PostedInto(receipts, rows[n].poLine), n);
    assert ReceiptLineFits(poLines, receipts, rows[n]) && ReceivedFits(poLines, receipts, rows, rows[n].poLine);
    assert poLines[rows[n].poLine] in poLines;
    assert PoStatusFits(pos[po].status, poLines, po);
  }

  // ---------------------------------------------------------------------------------------------
  // Order services
  // ---------------------------------------------------------------------------------------------

  // Orders whose lines stay keep a fitting status.
  lemma {:induction false} StatusFitKept(status: PoStatus, poLines: seq<PoLine>, poLines2: seq<PoLine>, po: nat)
    requires PoStatusFits(status, poLines, po)
    requires forall l: PoLine :: l.po == po ==> (l in poLines <==> l in poLines2)
    ensures PoStatusFits(status, poLines2, po)
  {
    forall j | NothingReceived(poLines, po) && 0 <= j < |poLines2| && poLines2[j].po == po
      ensures poLines2[j].received == 0
    {
      assert poLines2[j] in poLines2 && poLines2[j] in poLines;
    }
    forall l: PoLine | l.po == po ensures l in poLines <==> l in poLines2 {}
  }

  lemma {:induction false} NewOrderKeepsReceipts(pos: seq<Po>, poLines: seq<PoLine>, receipts: seq<Receipt>,
          rows: seq<ReceiptLine>, pos2: seq<Po>, poLines2: seq<PoLine>)
    requires ReceiptsFit(pos, poLines, receipts, rows) && OrdersFit(pos, poLines) && OrdersFit(pos2, poLines2)
    requires |pos2| == |pos| + 1 && pos2[..|pos|] == pos && pos2[|pos|].status == PoDraft
    requires Extends(poLines, poLines2, |pos|)
    ensures ReceiptsFit(pos2, poLines2, receipts, rows)
  {
    forall j | 0 <= j < |poLines| ensures poLines2[j] == poLines[j] { assert poLines2[..|poLines|][j] == poLines[j]; }
    forall n | 0 <= n < |rows| ensures ReceiptLineFits(poLines2, receipts, rows[n]) {
      assert ReceiptLineFits(poLines, receipts, rows[n]);
    }
    forall j | 0 <= j < |poLines2| ensures ReceivedFits(poLines2, receipts, rows, j) {
      if j < |poLines| {
        assert ReceivedFits(poLines, receipts, rows, j);
      } else {
        assert PoLineFits(pos2, poLines2[j]);
        forall x | x in rows ensures PostedInto(receipts, j)(x) == 0 {
          var i :| 0 <= i < |rows| && rows[i] == x;
          assert ReceiptLineFits(poLines, receipts, rows[i]);
        }
        SumZero(rows, PostedInto(receipts, j));
      }
    }
    forall r | 0 <= r < |receipts| ensures ReceiptFits(pos2, receipts, rows, r) {
      assert ReceiptFits(pos, receipts, rows, r);
    }
    forall o | 0 <= o < |pos2| ensures PoStatusFits(pos2[o].status, poLines2, o) {
      if o < |pos| {
        assert PoStatusFits(pos[o].status, poLines, o) && pos2[o] == pos[o];
        SameLinesBelow(poLines, poLines2, |pos|, o);
        StatusFitKept(pos[o].status, poLines, poLines2, o);
      } else {
        forall j | 0 <= j < |poLines| ensures poLines2[j].po != o { assert PoLineFits(pos, poLines[j]); }
      }
    }
  }

  lemma {:induction false} SameLinesBelow(poLines: seq<PoLine>, poLines2: seq<PoLine>, po: nat, o: nat)
    requires Extends(poLines, poLines2, po) && o != po
    ensures forall l: PoLine :: l.po == o ==> (l in poLines <==> l in poLines2)
  {
    assert poLines2 == poLines + poLines2[|poLines|..];
    forall l: PoLine | l.po == o ensures l in poLines <==> l in poLines2 {
      if l in poLines2 {
        var j :| 0 <= j < |poLines2| && poLines2[j] == l;
        assert j < |poLines|;
        assert poLines2[..|poLines|][j] == poLines[j];
      }
    }
  }

  // Only the status of order `po` changes, to one that fits.
  lemma {:induction false} StatusChangeKeepsReceipts(pos: seq<Po>, poLines: seq<PoLine>, receipts: seq<Receipt>,
          rows: seq<ReceiptLine>, pos2: seq<Po>)
    requires ReceiptsFit(pos, poLines, receipts, rows) && |pos2| == |pos|
    requires forall o :: 0 <= o < |pos| ==> pos2[o].status == pos[o].status || PoStatusFits(pos2[o].status, poLines, o)
    ensures ReceiptsFit(pos2, poLines, receipts, rows)
  {
    forall r | 0 <= r < |receipts| ensures ReceiptFits(pos2, receipts, rows, r) {
      assert ReceiptFits(pos, receipts, rows, r);
    }
    forall o | 0 <= o < |pos2| ensures PoStatusFits(pos2[o].status, poLines, o) {
      assert PoStatusFits(pos[o].status, poLines, o);
    }
  }

  // A confirmed or draft order has nothing received, whichever way the two are told apart.
  lemma {:induction false} NothingReceivedStatus(poLines: seq<PoLine>, po: nat)
    ensures NothingReceived(poLines, po) <==> StatusFor(poLines, po) == PoConfirmed
  {
    if NothingReceived(poLines, po) {
      forall l | l in poLines && l.po == po ensures l.received == 0 {
        var j :| 0 <= j < |poLines| && poLines[j] == l;
      }
    } else {
      var j :| 0 <= j < |poLines| && poLines[j].po == po && poLines[j].received != 0;
      assert poLines[j] in poLines;
    }
  }

  // The received-quantity guard of cancel_po never fires: only draft and confirmed orders get that far.
  lemma {:induction false} CancelNeverFindsReceipts(db: Db, user: User, po: nat, version: nat)
    requires ReceiptsFit(db.pos, db.poLines, db.receipts, db.receiptLines)
    requires OrderKeys(db.pos, db.poLines, db.sources, db.prLines)
    ensures Orders.CancelledPo(db, user, po, version) != Err(PoCancelHasReceipt)
  {
    if po < |db.pos| && Orders.MayTurn(db.pos[po].status, PoCancelled) {
      assert PoStatusFits(db.pos[po].status, db.poLines, po);
      NothingReceivedStatus(db.poLines, po);
      forall l | l in db.poLines && l.po == po ensures l.received == 0 {
        var j :| 0 <= j < |db.poLines| && db.poLines[j] == l;
      }
      GiveBackErrors(db.prLines, Select(db.sources, Orders.FeedingPo(db.poLines, po)));
    }
  }

  lemma {:induction false} GiveBackErrors(lines: map<nat, PrLine>, rows: seq<Source>)
    requires forall x :: x in rows ==> x.prLine in lines
    ensures Orders.GiveBack(lines, rows).Err? ==> Orders.GiveBack(lines, rows).error == Conflict
  {
    if rows != [] {
      var x, line := rows[0], lines[rows[0].prLine];
      GiveBackErrors(lines[x.prLine := line.(converted := line.converted - x.quantity)], rows[1..]);
    }
  }

  lemma {:induction false} CreatedPoKeepsReceipts(db: Db, user: User, m: Master, supplier: int,
          items: seq<Orders.ItemRequest>, after: Db)
    requires ReceiptsFit(db.pos, db.poLines, db.receipts, db.receiptLines) && OrdersFit(db.pos, db.poLines)
    requires Orders.CreatedPo(db, user, m, supplier, items) == Ok(after)
    requires OrdersFit(after.pos, after.poLines) && Extends(db.poLines, after.poLines, |db.pos|)
    ensures ReceiptsFit(after.pos, after.poLines, after.receipts, after.receiptLines)
  {
    NewOrderKeepsReceipts(db.pos, db.poLines, db.receipts, db.receiptLines, after.pos, after.poLines);
  }

  lemma {:induction false} ConfirmedPoKeepsReceipts(db: Db, user: User, po: nat, version: nat)
    requires ReceiptsFit(db.pos, db.poLines, db.receipts, db.receiptLines)
    requires Orders.ConfirmedPo(db, user, po, version).Ok?
    ensures ReceiptsFit(Orders.ConfirmedPo(db, user, po, version).value.pos, db.poLines, db.receipts, db.receiptLines)
  {
    assert PoStatusFits(db.pos[po].status, db.poLines, po);
    NothingReceivedStatus(db.poLines, po);
    StatusChangeKeepsReceipts(db.pos, db.poLines, db.receipts, db.receiptLines,
                              Orders.ConfirmedPo(db, user, po, version).value.pos);
  }

  lemma {:induction false} CancelledPoKeepsReceipts(db: Db, user: User, po: nat, version: nat)
    requires ReceiptsFit(db.pos, db.poLines, db.receipts, db.receiptLines)
    requires OrderKeys(db.pos, db.poLines, db.sources, db.prLines) && Orders.CancelledPo(db, user, po, version).Ok?
    ensures ReceiptsFit(Orders.CancelledPo(db, user, po, version).value.pos, db.poLines, db.receipts, db.receiptLines)
  {
    assert PoStatusFits(db.pos[po].status, db.poLines, po);
    NothingReceivedStatus(db.poLines, po);
    StatusChangeKeepsReceipts(db.pos, db.poLines, db.receipts, db.receiptLines,
                              Orders.CancelledPo(db, user, po, version).value.pos);
  }

  // ---------------------------------------------------------------------------------------------
  // Posting a receipt
  // ---------------------------------------------------------------------------------------------

  // Only lines of order `po` may differ, and only in what they received.
  ghost predicate OnlyReceives(base: seq<PoLine>, poLines: seq<PoLine>, po: nat) {
    && |poLines| == |base|
    && (forall j :: 0 <= j < |base| ==>
          && poLines[j] == base[j].(received := poLines[j].received)
          && (base[j].po != po ==> poLines[j] == base[j]))
  }

  predicate FreeSlot(rows: seq<ReceiptLine>, receipt: nat, poLine: nat) {
    forall n :: 0 <= n < |rows| && rows[n].receipt == receipt ==> rows[n].poLine != poLine
  }

  ghost predicate ReceivingFits(base: seq<PoLine>, old0: seq<ReceiptLine>, receipts: seq<Receipt>, w: Receiving,
          todo: seq<ReceiveRequest>)
    requires receipts != []
  {
    && RowsFit(w.poLines, receipts, w.lines)
    && OnlyReceives(base, w.poLines, receipts[|receipts| - 1].po)
    && |old0| <= |w.lines| && w.lines[..|old0|] == old0
    && (forall n :: |old0| <= n < |w.lines| ==> w.lines[n].receipt == |receipts| - 1)
    && (forall i :: 0 <= i < |todo| ==> FreeSlot(w.lines, |receipts| - 1, todo[i].poLine))
  }

  ghost predicate TodoFits(base: seq<PoLine>, po: nat, todo: seq<ReceiveRequest>) {
    && DistinctOn(todo, ByPoLine())
    && (forall i :: 0 <= i < |todo| ==>
          todo[i].poLine < |base| && base[todo[i].poLine].po == po && todo[i].quantity > 0)
  }

  lemma {:induction false} NewRowFits(poLines: seq<PoLine>, receipts: seq<Receipt>, rows: seq<ReceiptLine>,
          x: ReceiptLine)
    requires RowsFit(poLines, receipts, rows) && ReceiptLineFits(poLines, receipts, x)
    requires receipts[x.receipt].status == Posted && FreeSlot(rows, x.receipt, x.poLine)
    requires poLines[x.poLine].received + x.quantity <= poLines[x.poLine].ordered
    ensures RowsFit(poLines[x.poLine := poLines[x.poLine].(received := poLines[x.poLine].received + x.quantity)],
                    receipts, rows + [x])
  {
    var poLines2 := poLines[x.poLine := poLines[x.poLine].(received := poLines[x.poLine].received + x.quantity)];
    forall n | 0 <= n < |rows + [x]| ensures ReceiptLineFits(poLines2, receipts, (rows + [x])[n]) {
      if n < |rows| { assert ReceiptLineFits(poLines, receipts, rows[n]); }
    }
    forall j | 0 <= j < |poLines2| ensures ReceivedFits(poLines2, receipts, rows + [x], j) {
      assert ReceivedFits(poLines, receipts, rows, j);
      SumSnoc(rows, x, PostedInto(receipts, j));
    }
    forall m, n | 0 <= m < n < |rows + [x]| ensures !SameSlot((rows + [x])[m], (rows + [x])[n]) {}
  }

  lemma {:induction false} ReceiveLineFits(base: seq<PoLine>, old0: seq<ReceiptLine>, receipts: seq<Receipt>,
          balances: map<Key, Balance>, warehouse: int, w: Receiving, todo: seq<ReceiveRequest>)
    requires receipts != [] && receipts[|receipts| - 1].status == Posted
    requires ReceivingFits(base, old0, receipts, w, todo) && TodoFits(base, receipts[|receipts| - 1].po, todo)
    requires todo != []
    requires ReceiveLine(balances, warehouse, |receipts| - 1, w, todo[0]).Ok?
    ensures ReceivingFits(base, old0, receipts, ReceiveLine(balances, warehouse, |receipts| - 1, w, todo[0]).value,
                          todo[1..])
  {
    var item, line := todo[0], w.poLines[todo[0].poLine];
    var x := ReceiptLine(|receipts| - 1, item.poLine, line.material, item.quantity, line.price,
                         LineAmount(item.quantity, line.price));
    NewRowFits(w.poLines, receipts, w.lines, x);
    forall i | 0 <= i < |todo[1..]| ensures FreeSlot(w.lines + [x], |receipts| - 1, todo[1..][i].poLine) {
      assert todo[1..][i] == todo[i + 1] && FreeSlot(w.lines, |receipts| - 1, todo[i + 1].poLine);
      assert ByPoLine()(todo[0]) != ByPoLine()(todo[i + 1]);
    }
  }

  lemma {:induction false} TodoTail(base: seq<PoLine>, po: nat, todo: seq<ReceiveRequest>)
    requires TodoFits(base, po, todo) && todo != []
    ensures TodoFits(base, po, todo[1..])
  {
    forall i, j | 0 <= i < j < |todo[1..]| ensures ByPoLine()(todo[1..][i]) != ByPoLine()(todo[1..][j]) {
      assert ByPoLine()(todo[i + 1]) != ByPoLine()(todo[j + 1]);
    }
  }

  lemma {:induction false} ReceiveLinesFit(base: seq<PoLine>, old0: seq<ReceiptLine>, receipts: seq<Receipt>,
          balances: map<Key, Balance>, warehouse: int, w: Receiving, todo: seq<ReceiveRequest>)
    requires receipts != [] && receipts[|receipts| - 1].status == Posted
    requires ReceivingFits(base, old0, receipts, w, todo) && TodoFits(base, receipts[|receipts| - 1].po, todo)
    ensures var r := ReceiveLines(balances, warehouse, |receipts| - 1, w, todo);
            r.Ok? ==> ReceivingFits(base, old0, receipts, r.value, [])
    decreases |todo|
  {
    if todo != [] {
      TodoTail(base, receipts[|receipts| - 1].po, todo);
      var next := ReceiveLine(balances, warehouse, |receipts| - 1, w, todo[0]);
      if next.Ok? {
        ReceiveLineFits(base, old0, receipts, balances, warehouse, w, todo);
        ReceiveLinesFit(base, old0, receipts, balances, warehouse, next.value, todo[1..]);
      }
    }
  }

  // The receipt line an item turns into: material and price come from the order line.
  function LineFor(poLines: seq<PoLine>, receipt: nat, item: ReceiveRequest): ReceiptLine
    requires item.poLine < |poLines|
  {
    var line := poLines[item.poLine];
    ReceiptLine(receipt, item.poLine, line.material, item.quantity, line.price, LineAmount(item.quantity, line.price))
  }

  predicate WrittenAs(poLines: seq<PoLine>, receipt: nat, lines: seq<ReceiptLine>, first: nat, item: ReceiveRequest,
          k: nat) {
    item.poLine < |poLines| && first + k < |lines| && lines[first + k] == LineFor(poLines, receipt, item)
  }

  lemma {:induction false} ReceiveLinesWritten(balances: map<Key, Balance>, warehouse: int, receipt: nat,
          w: Receiving, todo: seq<ReceiveRequest>)
    requires forall i :: 0 <= i < |todo| ==> todo[i].poLine < |w.poLines|
    requires ReceiveLines(balances, warehouse, receipt, w, todo).Ok?
    ensures var r := ReceiveLines(balances, warehouse, receipt, w, todo).value;
      && |r.lines| == |w.lines| + |todo| && r.lines[..|w.lines|] == w.lines
      && forall k :: 0 <= k < |todo| ==> WrittenAs(w.poLines, receipt, r.lines, |w.lines|, todo[k], k)
    decreases |todo|
  {
    if todo != [] {
      var next := ReceiveLine(balances, warehouse, receipt, w, todo[0]).value;
      ReceiveLineWrites(balances, warehouse, receipt, w, todo[0]);
      hide ReceiveLine, LineAmount;
      ReceiveLinesWritten(balances, warehouse, receipt, next, todo[1..]);
      var r := ReceiveLines(balances, warehouse, receipt, w, todo).value;
      forall k | 0 <= k < |todo| ensures WrittenAs(w.poLines, receipt, r.lines, |w.lines|, todo[k], k) {
        if k == 0 {
          assert r.lines[|w.lines|] == r.lines[..|next.lines|][|w.lines|];
        } else {
          assert WrittenAs(next.poLines, receipt, r.lines, |next.lines|, todo[1..][k - 1], k - 1);
        }
      }
      assert r.lines[..|w.lines|] == r.lines[..|next.lines|][..|w.lines|];
    }
  }

  // The receipt's order goes to the status its lines say; nothing else about the orders changes.
  lemma {:induction false} NewStatusFits(pos: seq<Po>, poLines: seq<PoLine>, poLines2: seq<PoLine>, po: nat)
    requires po < |pos| && OnlyReceives(poLines, poLines2, po) && Orders.HasLines(poLines, po)
    requires forall o :: 0 <= o < |pos| ==> PoStatusFits(pos[o].status, poLines, o)
    requires forall j :: 0 <= j < |poLines2| ==> poLines2[j].ordered > 0
    ensures forall o :: 0 <= o < |pos| ==> PoStatusFits(WithStatus(pos, poLines2, po)[o].status, poLines2, o)
  {
    var j :| 0 <= j < |poLines| && poLines[j].po == po;
    assert poLines2[j] in poLines2;
    forall o | 0 <= o < |pos| ensures PoStatusFits(WithStatus(pos, poLines2, po)[o].status, poLines2, o) {
      if o != po {
        SameLinesElsewhere(poLines, poLines2, po, o);
        StatusFitKept(pos[o].status, poLines, poLines2, o);
      }
    }
  }

  lemma {:induction false} SameLinesElsewhere(poLines: seq<PoLine>, poLines2: seq<PoLine>, po: nat, o: nat)
    requires OnlyReceives(poLines, poLines2, po) && o != po
    ensures forall l: PoLine :: l.po == o ==> (l in poLines <==> l in poLines2)
  {
    forall l: PoLine | l.po == o ensures l in poLines <==> l in poLines2 {
      if l in poLines {
        var j :| 0 <= j < |poLines| && poLines[j] == l;
        assert poLines2[j] == l;
      }
      if l in poLines2 {
        var j :| 0 <= j < |poLines2| && poLines2[j] == l;
        assert poLines[j] == l;
      }
    }
  }

  lemma {:induction false} HeaderKeepsRows(poLines: seq<PoLine>, receipts: seq<Receipt>, rows: seq<ReceiptLine>,
          r: Receipt)
    requires RowsFit(poLines, receipts, rows)
    ensures RowsFit(poLines, receipts + [r], rows)
  {
    forall n | 0 <= n < |rows| ensures ReceiptLineFits(poLines, receipts + [r], rows[n]) {
      assert ReceiptLineFits(poLines, receipts, rows[n]);
    }
    forall j | 0 <= j < |poLines| ensures ReceivedFits(poLines, receipts + [r], rows, j) {
      assert ReceivedFits(poLines, receipts, rows, j);
      forall x | x in rows ensures PostedInto(receipts, j)(x) == PostedInto(receipts + [r], j)(x) {
        var n :| 0 <= n < |rows| && rows[n] == x;
        assert ReceiptLineFits(poLines, receipts, rows[n]);
      }
      SumEqual(rows, PostedInto(receipts, j), PostedInto(receipts + [r], j));
    }
  }

  lemma {:induction false} ReceivingStarts(db: Db, po: nat, warehouse: int, todo: seq<ReceiveRequest>)
    requires ReceiptsFit(db.pos, db.poLines, db.receipts, db.receiptLines)
    ensures ReceivingFits(db.poLines, db.receiptLines, db.receipts + [Receipt(po, warehouse, Posted)],
                          Receiving(db.poLines, db.receiptLines, []), todo)
  {
    HeaderKeepsRows(db.poLines, db.receipts, db.receiptLines, Receipt(po, warehouse, Posted));
    forall n | 0 <= n < |db.receiptLines| ensures db.receiptLines[n].receipt < |db.receipts| {
      assert ReceiptLineFits(db.poLines, db.receipts, db.receiptLines[n]);
    }
  }

  // What a successful create_receipt consists of.
  ghost predicate IsReceipt(db: Db, after: Db, po: nat, warehouse: int, todo: seq<ReceiveRequest>) {
    && po < |db.pos| && Receivable(db.pos[po].status) && todo != [] && TodoFits(db.poLines, po, todo)
    && ReceiveGoods(db, warehouse, todo).Ok?
    && after == WithReceipt(db, po, warehouse, ReceiveGoods(db, warehouse, todo).value)
  }

  lemma {:induction false} CreatedReceiptIs(db: Db, m: Master, po: nat, warehouse: int, items: seq<ReceiveRequest>,
          after: Db)
    requires CreatedReceipt(db, m, po, warehouse, items) == Ok(after)
    ensures IsReceipt(db, after, po, warehouse, Ordered(items)) && |Ordered(items)| == |items|
  {
    OrderedFacts(db.poLines, m, po, items);
  }

  lemma {:induction false} ReceiveGoodsFits(db: Db, po: nat, warehouse: int, todo: seq<ReceiveRequest>)
    requires ReceiptsFit(db.pos, db.poLines, db.receipts, db.receiptLines)
    requires TodoFits(db.poLines, po, todo) && ReceiveGoods(db, warehouse, todo).Ok?
    ensures var w := ReceiveGoods(db, warehouse, todo).value.w;
      && ReceivingFits(db.poLines, db.receiptLines, db.receipts + [Receipt(po, warehouse, Posted)], w, [])
      && |w.lines| == |db.receiptLines| + |todo|
  {
    var receipts2 := db.receipts + [Receipt(po, warehouse, Posted)];
    ReceivingStarts(db, po, warehouse, todo);
    ReceiveLinesFit(db.poLines, db.receiptLines, receipts2, db.balances, warehouse,
                    Receiving(db.poLines, db.receiptLines, []), todo);
    ReceiveLinesWritten(db.balances, warehouse, |db.receipts|, Receiving(db.poLines, db.receiptLines, []), todo);
  }

  lemma {:induction false} OnlyReceivesSameOrders(pos: seq<Po>, poLines: seq<PoLine>, poLines2: seq<PoLine>, po: nat)
    requires po < |pos| && OrdersFit(pos, poLines) && OnlyReceives(poLines, poLines2, po)
    requires pos[po].status != PoCancelled
    ensures SameOrders(pos, poLines, WithStatus(pos, poLines2, po), poLines2)
    ensures SameLiveness(pos, WithStatus(pos, poLines2, po))
    ensures Orders.HasLines(poLines, po)
  {
    assert OrderFits(pos, poLines, po);
  }

  lemma {:induction false} WithReceiptKeepsReceipts(db: Db, po: nat, warehouse: int, r: Received)
    requires ReceiptsFit(db.pos, db.poLines, db.receipts, db.receiptLines) && OrdersFit(db.pos, db.poLines)
    requires po < |db.pos| && db.pos[po].status != PoCancelled
    requires ReceivingFits(db.poLines, db.receiptLines, db.receipts + [Receipt(po, warehouse, Posted)], r.w, [])
    requires |r.w.lines| > |db.receiptLines|
    ensures ReceiptsFit(WithStatus(db.pos, r.w.poLines, po), r.w.poLines,
                        db.receipts + [Receipt(po, warehouse, Posted)], r.w.lines)
  {
    var receipts2, pos2 := db.receipts + [Receipt(po, warehouse, Posted)], WithStatus(db.pos, r.w.poLines, po);
    forall j | 0 <= j < |r.w.poLines| ensures r.w.poLines[j].ordered > 0 { assert PoLineFits(db.pos, db.poLines[j]); }
    OnlyReceivesSameOrders(db.pos, db.poLines, r.w.poLines, po);
    NewStatusFits(db.pos, db.poLines, r.w.poLines, po);
    forall d | 0 <= d < |receipts2| ensures ReceiptFits(pos2, receipts2, r.w.lines, d) {
      if d < |db.receipts| {
        assert ReceiptFits(db.pos, db.receipts, db.receiptLines, d);
        var n :| 0 <= n < |db.receiptLines| && db.receiptLines[n].receipt == d;
        assert r.w.lines[..|db.receiptLines|][n] == r.w.lines[n];
      } else {
        assert r.w.lines[|db.receiptLines|].receipt == d;
      }
    }
  }

  lemma {:induction false} ReceiptKeepsRules(db: Db, after: Db, po: nat, warehouse: int, todo: seq<ReceiveRequest>)
    requires ReceiptsFit(db.pos, db.poLines, db.receipts, db.receiptLines) && OrdersOk(db)
    requires IsReceipt(db, after, po, warehouse, todo)
    ensures OrdersOk(after) && ReceiptsFit(after.pos, after.poLines, after.receipts, after.receiptLines)
  {
    var r := ReceiveGoods(db, warehouse, todo).value;
    ReceiveGoodsFits(db, po, warehouse, todo);
    OnlyReceivesSameOrders(db.pos, db.poLines, r.w.poLines, po);
    SameOrdersKeepSources(db.prs, db.prLines, db.pos, db.poLines, db.sources, after.pos, after.poLines);
    SameOrdersFit(db.pos, db.poLines, after.pos, after.poLines);
    WithReceiptKeepsReceipts(db, po, warehouse, r);
  }

  // ---------------------------------------------------------------------------------------------
  // Reversing a receipt
  // ---------------------------------------------------------------------------------------------

  lemma {:induction false} ChosenSum(lines: seq<ReceiptLine>, r: nat, f: nat -> int, g: ReceiptLine -> int)
    requires forall n :: 0 <= n < |lines| ==> g(lines[n]) == if lines[n].receipt == r then f(n) else 0
    ensures Sum(Chosen(lines, r), f) == Sum(lines, g)
  {
    if lines != [] {
      var n := |lines| - 1;
      ChosenSum(lines[..n], r, f, g);
      if lines[n].receipt == r { SumSnoc<nat>(Chosen(lines[..n], r), n, f); }
    }
  }

  // Whatever is summed over the lines of a receipt, the order they are visited in does not matter.
  lemma {:induction false} LinesOfSum(lines: seq<ReceiptLine>, r: nat, f: nat -> int, g: ReceiptLine -> int)
    requires forall n :: 0 <= n < |lines| ==> g(lines[n]) == if lines[n].receipt == r then f(n) else 0
    ensures Sum(LinesOf(lines, r), f) == Sum(lines, g)
  {
    ChosenSum(lines, r, f, g);
    SortPermutes<nat>(Chosen(lines, r), PoLineOf(lines));
    SumAnyOrder<nat>(LinesOf(lines, r), Chosen(lines, r), f);
  }

  function QuantityAt(lines: seq<ReceiptLine>, j: nat): nat -> int {
    (n: nat) => if n < |lines| && lines[n].poLine == j then lines[n].quantity else 0
  }

  function OnReceipt(r: nat, j: nat): ReceiptLine -> int {
    (x: ReceiptLine) => if x.receipt == r && x.poLine == j then x.quantity else 0
  }

  // Order lines after the receipt lines at positions `ns` were taken back.
  ghost predicate TakenBack(poLines: seq<PoLine>, poLines2: seq<PoLine>, lines: seq<ReceiptLine>, ns: seq<nat>) {
    && |poLines2| == |poLines|
    && (forall j :: 0 <= j < |poLines| ==>
          poLines2[j] == poLines[j].(received := poLines[j].received - Sum(ns, QuantityAt(lines, j))))
  }

  lemma {:induction false} ReverseLineTakesBack(db: Db, receipt: nat, w: Reversing, n: nat)
    requires receipt < |db.receipts| && n < |db.receiptLines| && db.receiptLines[n].poLine < |w.poLines|
    requires ReverseLine(db, receipt, w, n).Ok?
    ensures var l, r := db.receiptLines[n], ReverseLine(db, receipt, w, n).value;
            var line := w.poLines[l.poLine];
            r.poLines == w.poLines[l.poLine := line.(received := line.received - l.quantity)]
  {
  }

  lemma {:induction false} ReverseLinesTakesBack(db: Db, receipt: nat, w: Reversing, ns: seq<nat>)
    requires receipt < |db.receipts|
    requires forall i :: 0 <= i < |ns| ==> ns[i] < |db.receiptLines| && db.receiptLines[ns[i]].poLine < |w.poLines|
    requires ReverseLines(db, receipt, w, ns).Ok?
    ensures TakenBack(w.poLines, ReverseLines(db, receipt, w, ns).value.poLines, db.receiptLines, ns)
    decreases |ns|
  {
    if ns != [] {
      ReverseLineTakesBack(db, receipt, w, ns[0]);
      ReverseLinesTakesBack(db, receipt, ReverseLine(db, receipt, w, ns[0]).value, ns[1..]);
      forall j | 0 <= j < |w.poLines|
        ensures Sum(ns, QuantityAt(db.receiptLines, j))
             == QuantityAt(db.receiptLines, j)(ns[0]) + Sum(ns[1..], QuantityAt(db.receiptLines, j))
      {
        SumFront<nat>(ns, QuantityAt(db.receiptLines, j));
      }
    }
  }

  lemma {:induction false} ReversalReceived(poLines: seq<PoLine>, receipts: seq<Receipt>, rows: seq<ReceiptLine>,
          r: nat, j: nat)
    requires RowsFit(poLines, receipts, rows) && r < |receipts| && receipts[r].status == Posted && j < |poLines|
    ensures var receipts2 := receipts[r := receipts[r].(status := Reversed)];
      poLines[j].received - Sum(LinesOf(rows, r), QuantityAt(rows, j)) == Sum(rows, PostedInto(receipts2, j)) >= 0
    ensures Sum(LinesOf(rows, r), QuantityAt(rows, j)) >= 0
    ensures poLines[j].po != receipts[r].po ==> Sum(LinesOf(rows, r), QuantityAt(rows, j)) == 0
  {
    var receipts2 := receipts[r := receipts[r].(status := Reversed)];
    assert ReceivedFits(poLines, receipts, rows, j);
    forall x | x in rows
      ensures x.quantity > 0 && PostedInto(receipts, j)(x) == OnReceipt(r, j)(x) + PostedInto(receipts2, j)(x)
      ensures poLines[j].po != receipts[r].po ==> OnReceipt(r, j)(x) == 0
    {
      var n :| 0 <= n < |rows| && rows[n] == x;
      assert ReceiptLineFits(poLines, receipts, rows[n]);
    }
    SumSplit(rows, PostedInto(receipts, j), OnReceipt(r, j), PostedInto(receipts2, j));
    LinesOfSum(rows, r, QuantityAt(rows, j), OnReceipt(r, j));
    SumNonNegative(rows, PostedInto(receipts2, j));
    SumNonNegative(rows, OnReceipt(r, j));
    if poLines[j].po != receipts[r].po { SumZero(rows, OnReceipt(r, j)); }
  }

  lemma {:induction false} ReversalKeepsRows(poLines: seq<PoLine>, receipts: seq<Receipt>, rows: seq<ReceiptLine>,
          r: nat, poLines2: seq<PoLine>)
    requires RowsFit(poLines, receipts, rows) && r < |receipts| && receipts[r].status == Posted
    requires TakenBack(poLines, poLines2, rows, LinesOf(rows, r))
    ensures RowsFit(poLines2, receipts[r := receipts[r].(status := Reversed)], rows)
    ensures OnlyReceives(poLines, poLines2, receipts[r].po)
  {
    var receipts2 := receipts[r := receipts[r].(status := Reversed)];
    forall n | 0 <= n < |rows| ensures ReceiptLineFits(poLines2, receipts2, rows[n]) {
      assert ReceiptLineFits(poLines, receipts, rows[n]);
    }
    forall j | 0 <= j < |poLines2|
      ensures ReceivedFits(poLines2, receipts2, rows, j)
      ensures poLines[j].po != receipts[r].po ==> poLines2[j] == poLines[j]
    {
      assert ReceivedFits(poLines, receipts, rows, j);
      ReversalReceived(poLines, receipts, rows, r, j);
    }
  }

  // What a successful reverse_receipt consists of.
  ghost predicate IsReversal(db: Db, after: Db, receipt: nat) {
    && receipt < |db.receipts| && db.receipts[receipt].status == Posted && db.receipts[receipt].po < |db.pos|
    && (forall n :: 0 <= n < |db.receiptLines| ==> db.receiptLines[n].poLine < |db.poLines|)
    && UndoGoods(db, receipt).Ok?
    && after == WithReversal(db, receipt, UndoGoods(db, receipt).value)
  }

  lemma {:induction false} ReversedReceiptIs(db: Db, receipt: nat, after: Db)
    requires ReceiptKeys(db.pos, db.poLines, db.receipts, db.receiptLines) && ReversedReceipt(db, receipt) == Ok(after)
    ensures IsReversal(db, after, receipt)
  {
  }

  lemma {:induction false} UndoGoodsTakesBack(db: Db, receipt: nat)
    requires receipt < |db.receipts|
    requires forall n :: 0 <= n < |db.receiptLines| ==> db.receiptLines[n].poLine < |db.poLines|
    requires UndoGoods(db, receipt).Ok?
    ensures TakenBack(db.poLines, UndoGoods(db, receipt).value.w.poLines, db.receiptLines,
                      LinesOf(db.receiptLines, receipt))
  {
    LinesOfMembers(db.receiptLines, receipt);
    ReverseLinesTakesBack(db, receipt, Reversing(db.poLines, []), LinesOf(db.receiptLines, receipt));
  }

  lemma {:induction false} WithReversalKeepsReceipts(db: Db, r: nat, poLines2: seq<PoLine>)
    requires ReceiptsFit(db.pos, db.poLines, db.receipts, db.receiptLines) && OrdersFit(db.pos, db.poLines)
    requires r < |db.receipts| && db.receipts[r].status == Posted && db.receipts[r].po < |db.pos|
    requires TakenBack(db.poLines, poLines2, db.receiptLines, LinesOf(db.receiptLines, r))
    ensures var po := db.receipts[r].po;
      && ReceiptsFit(WithStatus(db.pos, poLines2, po), poLines2, db.receipts[r := db.receipts[r].(status := Reversed)],
                     db.receiptLines)
      && SameOrders(db.pos, db.poLines, WithStatus(db.pos, poLines2, po), poLines2)
      && SameLiveness(db.pos, WithStatus(db.pos, poLines2, po))
  {
    var po, receipts2 := db.receipts[r].po, db.receipts[r := db.receipts[r].(status := Reversed)];
    PostedMeansReceived(db.pos, db.poLines, db.receipts, db.receiptLines, r);
    ReversalKeepsRows(db.poLines, db.receipts, db.receiptLines, r, poLines2);
    OnlyReceivesSameOrders(db.pos, db.poLines, poLines2, po);
    forall j | 0 <= j < |poLines2| ensures poLines2[j].ordered > 0 { assert PoLineFits(db.pos, db.poLines[j]); }
    NewStatusFits(db.pos, db.poLines, poLines2, po);
    forall d | 0 <= d < |receipts2|
      ensures ReceiptFits(WithStatus(db.pos, poLines2, po), receipts2, db.receiptLines, d)
    {
      assert ReceiptFits(db.pos, db.receipts, db.receiptLines, d);
    }
  }

  lemma {:induction false} ReversalKeepsRules(db: Db, after: Db, receipt: nat)
    requires ReceiptsFit(db.pos, db.poLines, db.receipts, db.receiptLines) && OrdersOk(db)
    requires IsReversal(db, after, receipt)
    ensures OrdersOk(after) && ReceiptsFit(after.pos, after.poLines, after.receipts, after.receiptLines)
  {
    UndoGoodsTakesBack(db, receipt);
    WithReversalKeepsReceipts(db, receipt, after.poLines);
    SameOrdersKeepSources(db.prs, db.prLines, db.pos, db.poLines, db.sources, after.pos, after.poLines);
    SameOrdersFit(db.pos, db.poLines, after.pos, after.poLines);
  }

  // ---------------------------------------------------------------------------------------------
  // What the two calls do to documents and orders, seen from outside
  // ---------------------------------------------------------------------------------------------

  // The documents of `mid` are those of `db` and one more posted receipt with its lines.
  ghost predicate AddsReceipt(db: Db, mid: Db, doc: Receipt, tail: seq<ReceiptLine>) {
    && doc.status == Posted && mid.receipts == db.receipts + [doc] && mid.receiptLines == db.receiptLines + tail
    && (forall i :: 0 <= i < |db.receiptLines| ==> db.receiptLines[i].receipt < |db.receipts|)
    && (forall i :: 0 <= i < |tail| ==> tail[i].receipt == |db.receipts|)
  }

  lemma {:induction false} AddedLines(base: seq<PoLine>, old0: seq<ReceiptLine>, receipts: seq<Receipt>, w: Receiving)
    requires receipts != [] && ReceivingFits(base, old0, receipts, w, [])
    ensures |old0| <= |w.lines| && w.lines == old0 + w.lines[|old0|..]
    ensures forall i :: 0 <= i < |w.lines[|old0|..]| ==> w.lines[|old0|..][i].receipt == |receipts| - 1
    ensures OnlyReceives(base, w.poLines, receipts[|receipts| - 1].po)
  {
  }

  lemma {:induction false} ReceiptEffect(db: Db, mid: Db, po: nat, warehouse: int, todo: seq<ReceiveRequest>)
    requires ReceiptsFit(db.pos, db.poLines, db.receipts, db.receiptLines)
    requires IsReceipt(db, mid, po, warehouse, todo)
    ensures |mid.receiptLines| >= |db.receiptLines|
    ensures AddsReceipt(db, mid, Receipt(po, warehouse, Posted), mid.receiptLines[|db.receiptLines|..])
    ensures OnlyReceives(db.poLines, mid.poLines, po)
    ensures po < |db.pos| && mid.pos == WithStatus(db.pos, mid.poLines, po)
  {
    ReceiveGoodsFits(db, po, warehouse, todo);
    AddedLines(db.poLines, db.receiptLines, mid.receipts, ReceiveGoods(db, warehouse, todo).value.w);
    ReceiptKeysFollow(db.pos, db.poLines, db.receipts, db.receiptLines);
  }

  lemma {:induction false} ReversalEffect(db: Db, after: Db, r: nat)
    requires RowsFit(db.poLines, db.receipts, db.receiptLines) && IsReversal(db, after, r)
    ensures r < |db.receipts| && db.receipts[r].po < |db.pos|
    ensures after.receipts == db.receipts[r := db.receipts[r].(status := Reversed)]
    ensures after.receiptLines == db.receiptLines
    ensures OnlyReceives(db.poLines, after.poLines, db.receipts[r].po)
    ensures after.pos == WithStatus(db.pos, after.poLines, db.receipts[r].po)
  {
    UndoGoodsTakesBack(db, r);
    ReversalKeepsRows(db.poLines, db.receipts, db.receiptLines, r, after.poLines);
  }
}
