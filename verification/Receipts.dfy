/** Purchase receipts: posting goods against an order, and reversing a whole receipt by its original amounts. */
module Receipts {
  import opened Sums
  import opened Money
  import opened Sorting
  import opened Tables
  import opened Inventory
  import Orders

  datatype ReceiveRequest = ReceiveRequest(poLine: nat, quantity: int)

  // ---------------------------------------------------------------------------------------------
  // Checks before anything is written
  // ---------------------------------------------------------------------------------------------

  predicate Receivable(status: PoStatus) {
    status == PoConfirmed || status == PoPartiallyReceived
  }

  function RequestsOk(items: seq<ReceiveRequest>, seen: set<nat>): Result<()> {
    if items == [] then Ok(())
    else if items[0].poLine in seen then Err(ReceiptDuplicateItem)
    else if items[0].quantity <= 0 then Err(ReceiptQuantityPositive)
    else RequestsOk(items[1..], seen + {items[0].poLine})
  }

  function LinesOk(poLines: seq<PoLine>, m: Master, po: nat, items: seq<ReceiveRequest>): Result<()> {
    if items == [] then Ok(())
    else if items[0].poLine >= |poLines| then Err(PoItemNotFound)
    else if poLines[items[0].poLine].po != po then Err(ReceiptItemNotInPo)
    else
      var _ :- Active(m.materials, poLines[items[0].poLine].material, NotFound, MasterDataDisabled);
      LinesOk(poLines, m, po, items[1..])
  }

  function Precheck(db: Db, m: Master, po: nat, warehouse: int, items: seq<ReceiveRequest>): Result<()> {
    if items == [] then Err(ReceiptEmptyItems)
    else if po >= |db.pos| then Err(PoNotFound)
    else if !Receivable(db.pos[po].status) then Err(PoNotReceivable)
    else
      var _ :- Active(m.warehouses, warehouse, NotFound, MasterDataDisabled);
      var _ :- RequestsOk(items, {});
      LinesOk(db.poLines, m, po, items)
  }

  lemma {:induction false} RequestsFacts(items: seq<ReceiveRequest>, seen: set<nat>)
    requires RequestsOk(items, seen).Ok?
    ensures DistinctOn(items, ByPoLine())
    ensures forall i :: 0 <= i < |items| ==> items[i].quantity > 0 && items[i].poLine !in seen
  {
    if items != [] {
      RequestsFacts(items[1..], seen + {items[0].poLine});
      forall i | 0 < i < |items|
        ensures items[i].poLine != items[0].poLine && items[i].poLine !in seen && items[i].quantity > 0
      {
        assert items[i] == items[1..][i - 1];
      }
      forall i, j | 0 < i < j < |items| ensures items[i].poLine != items[j].poLine {
        assert items[i] == items[1..][i - 1] && items[j] == items[1..][j - 1];
        assert ByPoLine()(items[1..][i - 1]) != ByPoLine()(items[1..][j - 1]);
      }
    }
  }

  lemma {:induction false} LinesFacts(poLines: seq<PoLine>, m: Master, po: nat, items: seq<ReceiveRequest>)
    requires LinesOk(poLines, m, po, items).Ok?
    ensures forall i :: 0 <= i < |items| ==> items[i].poLine < |poLines| && poLines[items[i].poLine].po == po
  {
    if items != [] {
      LinesFacts(poLines, m, po, items[1..]);
      forall i | 0 < i < |items| ensures items[i].poLine < |poLines| && poLines[items[i].poLine].po == po {
        assert items[i] == items[1..][i - 1];
      }
    }
  }

  function ByPoLine(): ReceiveRequest -> int {
    (i: ReceiveRequest) => i.poLine
  }

  // The payload in the order it is written: ascending order line.
  function Ordered(items: seq<ReceiveRequest>): seq<ReceiveRequest> {
    SortOn(items, ByPoLine())
  }

  // ---------------------------------------------------------------------------------------------
  // Writing lines
  // ---------------------------------------------------------------------------------------------

  // What the loop over receipt lines has written so far: order lines, receipt lines, new ledger rows.
  datatype Receiving = Receiving(poLines: seq<PoLine>, lines: seq<ReceiptLine>, rows: seq<Txn>)

  function NextAfter(balances: map<Key, Balance>, rows: seq<Txn>, key: Key): int {
    BalanceOf(balances, key).quantity + Sum(rows, QuantityOn(key))
  }

  function ReceiveLine(balances: map<Key, Balance>, warehouse: int, receipt: nat, w: Receiving,
          item: ReceiveRequest): Result<Receiving>
    requires item.poLine < |w.poLines|
  {
    var line := w.poLines[item.poLine];
    if line.received + item.quantity > line.ordered then Err(ReceiptExceedsRemaining) else
      var amount := LineAmount(item.quantity, line.price);
      var key := Key(warehouse, line.material);
      var row := Txn(PurchaseIn, key, item.quantity, line.price, amount,
                     NextAfter(balances, w.rows, key) + item.quantity,
                     ReceiptSource(receipt, |w.lines|), None);
      Ok(Receiving(w.poLines[item.poLine := line.(received := line.received + item.quantity)],
                   w.lines + [ReceiptLine(receipt, item.poLine, line.material, item.quantity, line.price, amount)],
                   w.rows + [row]))
  }

  function ReceiveLines(balances: map<Key, Balance>, warehouse: int, receipt: nat, w: Receiving,
          items: seq<ReceiveRequest>): Result<Receiving>
    requires forall i :: 0 <= i < |items| ==> items[i].poLine < |w.poLines|
    decreases |items|
  {
    if items == [] then Ok(w) else
      var next :- ReceiveLine(balances, warehouse, receipt, w, items[0]);
      ReceiveLines(balances, warehouse, receipt, next, items[1..])
  }

  // What one line writes, apart from its ledger row.
  lemma {:induction false} ReceiveLineWrites(balances: map<Key, Balance>, warehouse: int, receipt: nat, w: Receiving,
          item: ReceiveRequest)
    requires item.poLine < |w.poLines| && ReceiveLine(balances, warehouse, receipt, w, item).Ok?
    ensures var r, line := ReceiveLine(balances, warehouse, receipt, w, item).value, w.poLines[item.poLine];
      && r.poLines == w.poLines[item.poLine := line.(received := line.received + item.quantity)]
      && r.lines == w.lines + [ReceiptLine(receipt, item.poLine, line.material, item.quantity, line.price,
                                           LineAmount(item.quantity, line.price))]
  {
  }

  // ---------------------------------------------------------------------------------------------
  // Applying the aggregates, one key at a time in lock order
  // ---------------------------------------------------------------------------------------------

  // Per-key aggregate of one business operation, as a magnitude in its direction (1 in, -1 out).
  datatype Delta = Delta(quantity: int, amount: int)

  function TotalOf(rows: seq<Txn>, direction: int, key: Key): Delta {
    Delta(direction * Sum(rows, QuantityOn(key)), direction * Sum(rows, AmountOn(key)))
  }

  function Totals(rows: seq<Txn>, direction: int, keys: seq<Key>): map<Key, Delta> {
    map k | k in keys :: TotalOf(rows, direction, k)
  }

  function Apply(b: Balance, direction: int, d: Delta): Result<Balance> {
    if direction == 1 then Inbound(b, d.quantity, d.amount) else Outbound(b, d.quantity, d.amount)
  }

  function ApplyAll(balances: map<Key, Balance>, keys: seq<Key>, direction: int,
          totals: map<Key, Delta>): Result<map<Key, Balance>>
    requires forall k :: k in keys ==> k in balances && k in totals
  {
    if keys == [] then Ok(balances) else
      var b :- Apply(balances[keys[0]], direction, totals[keys[0]]);
      ApplyAll(balances[keys[0] := b], keys[1..], direction, totals)
  }

  // Lock every key, then apply the rows' aggregates in lock order.
  function LockAndApply(balances: map<Key, Balance>, keys: seq<Key>, direction: int,
          rows: seq<Txn>): Result<map<Key, Balance>> {
    ApplyAll(Upsert(balances, keys), SortKeys(keys), direction, Totals(rows, direction, keys))
  }

  function AppliedAt(balances: map<Key, Balance>, keys: seq<Key>, direction: int, totals: map<Key, Delta>,
          k: Key): Balance
    requires k in balances && forall k :: k in keys ==> k in totals
  {
    if k in keys then (match Apply(balances[k], direction,
                                   totals[k]) case Ok(b) => b case Err(_) => balances[k]) else balances[k]
  }

  // Where it succeeds it is the aggregated posting of the rows; it fails exactly when some key cannot bear it.
  lemma {:induction false} ApplyAllFacts(balances: map<Key, Balance>, keys: seq<Key>, direction: int,
          totals: map<Key, Delta>)
    requires Ascending(keys)
    requires forall k :: k in keys ==> k in balances && k in totals
    ensures ApplyAll(balances, keys, direction, totals).Ok? <==>
      forall k :: k in keys ==> Apply(balances[k], direction, totals[k]).Ok?
    ensures var r := ApplyAll(balances, keys, direction, totals); r.Ok? ==> r.value.Keys == balances.Keys
    ensures var r := ApplyAll(balances, keys, direction, totals);
            r.Ok? ==> forall k :: k in balances ==> r.value[k] == AppliedAt(balances, keys, direction, totals, k)
  {
    if keys != [] {
      var k0 := keys[0];
      assert k0 !in keys[1..];
      assert forall k :: k in keys <==> k == k0 || k in keys[1..];
      if Apply(balances[k0], direction, totals[k0]).Ok? {
        ApplyAllFacts(balances[k0 := Apply(balances[k0], direction, totals[k0]).value], keys[1..], direction, totals);
      }
    }
  }

  function KeysFor(lines: seq<ReceiptLine>, warehouse: int, ns: seq<nat>): (r: seq<Key>)
    requires forall i :: 0 <= i < |ns| ==> ns[i] < |lines|
    ensures |r| == |ns| && forall i :: 0 <= i < |ns| ==> r[i] == Key(warehouse, lines[ns[i]].material)
  {
    seq(|ns|, i requires 0 <= i < |ns| => Key(warehouse, lines[ns[i]].material))
  }

  function KeysOrdered(poLines: seq<PoLine>, warehouse: int, items: seq<ReceiveRequest>): (r: seq<Key>)
    requires forall i :: 0 <= i < |items| ==> items[i].poLine < |poLines|
    ensures |r| == |items| && forall i :: 0 <= i < |items| ==> r[i] == Key(warehouse, poLines[items[i].poLine].material)
  {
    seq(|items|, i requires 0 <= i < |items| => Key(warehouse, poLines[items[i].poLine].material))
  }

  // The order's status, derived from scratch from its received quantities.
  function StatusFor(poLines: seq<PoLine>, po: nat): PoStatus {
    if forall l :: l in poLines && l.po == po ==> l.received == 0 then PoConfirmed
    else if forall l :: l in poLines && l.po == po ==> l.received == l.ordered then PoReceived
    else PoPartiallyReceived
  }

  function WithStatus(pos: seq<Po>, poLines: seq<PoLine>, po: nat): (r: seq<Po>)
    requires po < |pos|
    ensures |r| == |pos|
  {
    if !Orders.HasLines(poLines, po) then pos else pos[po := pos[po].(status := StatusFor(poLines, po))]
  }

  // ---------------------------------------------------------------------------------------------
  // The services, as specified
  // ---------------------------------------------------------------------------------------------

  // Lines, ledger rows and balances of a receipt, or the first error on the way.
  datatype Received = Received(w: Receiving, balances: map<Key, Balance>)

  function ReceiveGoods(db: Db, warehouse: int, items: seq<ReceiveRequest>): Result<Received>
    requires forall i :: 0 <= i < |items| ==> items[i].poLine < |db.poLines|
  {
    var w :- ReceiveLines(db.balances, warehouse, |db.receipts|, Receiving(db.poLines, db.receiptLines, []), items);
    var balances :- LockAndApply(db.balances, KeysOrdered(db.poLines, warehouse, items), 1, w.rows);
    Ok(Received(w, balances))
  }

  function WithReceipt(db: Db, po: nat, warehouse: int, r: Received): Db
    requires po < |db.pos|
  {
    db.(receipts := db.receipts + [Receipt(po, warehouse, Posted)],
        poLines := r.w.poLines, receiptLines := r.w.lines,
        ledger := db.ledger + r.w.rows, balances := r.balances,
        pos := WithStatus(db.pos, r.w.poLines, po),
        audit := db.audit + [Audit(ReceiptPosted, |db.receipts|)])
  }

  ghost function CreatedReceipt(db: Db, m: Master, po: nat, warehouse: int, items: seq<ReceiveRequest>): Result<Db> {
    var _ :- Precheck(db, m, po, warehouse, items);
    OrderedFacts(db.poLines, m, po, items);
    var r :- ReceiveGoods(db, warehouse, Ordered(items));
    Ok(WithReceipt(db, po, warehouse, r))
  }

  lemma {:induction false} OrderedFacts(poLines: seq<PoLine>, m: Master, po: nat, items: seq<ReceiveRequest>)
    requires RequestsOk(items, {}).Ok? && LinesOk(poLines, m, po, items).Ok?
    ensures forall i :: 0 <= i < |Ordered(items)| ==>
      && Ordered(items)[i].poLine < |poLines| && poLines[Ordered(items)[i].poLine].po == po
      && Ordered(items)[i].quantity > 0
    ensures DistinctOn(Ordered(items), ByPoLine())
  {
    RequestsFacts(items, {});
    LinesFacts(poLines, m, po, items);
    SortKeepsDistinct(items, ByPoLine());
    var s := Ordered(items);
    forall i | 0 <= i < |s| ensures s[i].poLine < |poLines| && poLines[s[i].poLine].po == po && s[i].quantity > 0 {
      SortMembers(items, ByPoLine(), s[i]);
      var j :| 0 <= j < |items| && items[j] == s[i];
    }
  }

  // ---------------------------------------------------------------------------------------------
  // Reversal
  // ---------------------------------------------------------------------------------------------

  function PoLineOf(lines: seq<ReceiptLine>): nat -> int {
    (n: nat) => if n < |lines| then lines[n].poLine else 0
  }

  function Chosen(lines: seq<ReceiptLine>, receipt: nat): (r: seq<nat>)
    ensures forall n: nat :: n in r <==> n < |lines| && lines[n].receipt == receipt
  {
    if lines == [] then [] else
      var n := |lines| - 1;
      if lines[n].receipt == receipt then Chosen(lines[..n], receipt) + [n] else Chosen(lines[..n], receipt)
  }

  // The receipt's lines, ascending by order line.
  function LinesOf(lines: seq<ReceiptLine>, receipt: nat): seq<nat> {
    SortOn<nat>(Chosen(lines, receipt), PoLineOf(lines))
  }

  lemma {:induction false} LinesOfMembers(lines: seq<ReceiptLine>, receipt: nat)
    ensures forall n: nat :: n in LinesOf(lines, receipt) <==> n < |lines| && lines[n].receipt == receipt
    ensures forall i :: 0 <= i < |LinesOf(lines, receipt)| ==>
      LinesOf(lines, receipt)[i] < |lines| && lines[LinesOf(lines, receipt)[i]].receipt == receipt
  {
    var r := LinesOf(lines, receipt);
    forall n: nat ensures n in r <==> n < |lines| && lines[n].receipt == receipt {
      SortMembers<nat>(Chosen(lines, receipt), PoLineOf(lines), n);
    }
    forall i | 0 <= i < |r| ensures r[i] < |lines| && lines[r[i]].receipt == receipt { assert r[i] in r; }
  }

  // The ledger row a document line was posted with.
  function FindRow(ledger: seq<Txn>, source: TxnSource): (r: Option<nat>)
    ensures r.Some? ==> r.value < |ledger| && ledger[r.value].source == source
    ensures r.None? ==> forall i :: 0 <= i < |ledger| ==> ledger[i].source != source
  {
    if ledger == [] then None
    else
      var earlier := FindRow(ledger[..|ledger| - 1], source);
      if earlier.Some? then earlier
      else if ledger[|ledger| - 1].source == source then Some(|ledger| - 1) else None
  }

  predicate IsReversed(ledger: seq<Txn>, row: nat) {
    exists i :: 0 <= i < |ledger| && ledger[i].reversed == Some(row)
  }

  datatype Reversing = Reversing(poLines: seq<PoLine>, rows: seq<Txn>)

  function ReverseLine(db: Db, receipt: nat, w: Reversing, n: nat): Result<Reversing>
    requires receipt < |db.receipts| && n < |db.receiptLines| && db.receiptLines[n].poLine < |w.poLines|
  {
    var l := db.receiptLines[n];
    var line := w.poLines[l.poLine];
    if line.received < l.quantity then Err(Conflict) else
      var original := FindRow(db.ledger, ReceiptSource(receipt, n));
      if original.None? then Err(InventoryBalanceMismatch)
      else if IsReversed(db.ledger + w.rows, original.value) then Err(ReceiptAlreadyReversed)
      else
        var o := db.ledger[original.value];
        var key := Key(db.receipts[receipt].warehouse, l.material);
        var row := Txn(PurchaseInReversal, key, -l.quantity, o.unitCost, -o.amount,
                       NextAfter(db.balances, w.rows, key) - l.quantity, ReversalSource(receipt, n), original);
        if !Signed(row) then Err(ValidationError)
        else Ok(Reversing(w.poLines[l.poLine := line.(received := line.received - l.quantity)], w.rows + [row]))
  }

  function ReverseLines(db: Db, receipt: nat, w: Reversing, ns: seq<nat>): Result<Reversing>
    requires receipt < |db.receipts|
    requires forall i :: 0 <= i < |ns| ==> ns[i] < |db.receiptLines| && db.receiptLines[ns[i]].poLine < |w.poLines|
    decreases |ns|
  {
    if ns == [] then Ok(w) else
      var next :- ReverseLine(db, receipt, w, ns[0]);
      ReverseLines(db, receipt, next, ns[1..])
  }

  datatype Undone = Undone(w: Reversing, balances: map<Key, Balance>)

  function UndoGoods(db: Db, receipt: nat): Result<Undone>
    requires receipt < |db.receipts|
    requires forall n :: 0 <= n < |db.receiptLines| ==> db.receiptLines[n].poLine < |db.poLines|
  {
    var ns := LinesOf(db.receiptLines, receipt);
    LinesOfMembers(db.receiptLines, receipt);
    var w :- ReverseLines(db, receipt, Reversing(db.poLines, []), ns);
    var balances :- LockAndApply(db.balances, KeysFor(db.receiptLines, db.receipts[receipt].warehouse, ns), -1, w.rows);
    Ok(Undone(w, balances))
  }

  function WithReversal(db: Db, receipt: nat, r: Undone): Db
    requires receipt < |db.receipts| && db.receipts[receipt].po < |db.pos|
  {
    var doc := db.receipts[receipt];
    db.(receipts := db.receipts[receipt := doc.(status := Reversed)],
        poLines := r.w.poLines,
        ledger := db.ledger + r.w.rows, balances := r.balances,
        pos := WithStatus(db.pos, r.w.poLines, doc.po),
        audit := db.audit + [Audit(ReceiptWasReversed, receipt)])
  }

  ghost function ReversedReceipt(db: Db, receipt: nat): Result<Db>
    requires ReceiptKeys(db.pos, db.poLines, db.receipts, db.receiptLines)
  {
    if receipt >= |db.receipts| then Err(ReceiptNotFound)
    else if db.receipts[receipt].status == Reversed then Err(ReceiptAlreadyReversed)
    else
      var r :- UndoGoods(db, receipt);
      Ok(WithReversal(db, receipt, r))
  }

  // ---------------------------------------------------------------------------------------------
  // The same services, step by step
  // ---------------------------------------------------------------------------------------------

  // The running dictionaries of a posting loop: quantity and aggregate per locked key.
  datatype Books = Books(running: map<Key, int>, totals: map<Key, Delta>)

  predicate TracksAt(balances: map<Key, Balance>, rows: seq<Txn>, direction: int, books: Books, k: Key) {
    && k in books.running && books.running[k] == NextAfter(balances, rows, k)
    && k in books.totals && books.totals[k] == TotalOf(rows, direction, k)
  }

  predicate Tracks(balances: map<Key, Balance>, rows: seq<Txn>, direction: int, books: Books, keys: seq<Key>) {
    forall k :: k in keys ==> TracksAt(balances, rows, direction, books, k)
  }

  method OpenBooks(balances: map<Key, Balance>, direction: int, keys: seq<Key>) returns (books: Books)
    ensures Tracks(balances, [], direction, books, keys)
  {
    books := Books(map k | k in keys :: BalanceOf(balances, k).quantity, map k | k in keys :: Delta(0, 0));
    forall k | k in keys ensures TracksAt(balances, [], direction, books, k) {}
  }

  method Record(balances: map<Key, Balance>, ghost rows: seq<Txn>, direction: int, books: Books, keys: seq<Key>,
          row: Txn)
    returns (r: Books)
    requires Tracks(balances, rows, direction, books, keys) && row.key in keys
    ensures Tracks(balances, rows + [row], direction, r, keys)
  {
    var k0 := row.key;
    assert TracksAt(balances, rows, direction, books, k0);
    var total := books.totals[k0];
    r := Books(books.running[k0 := books.running[k0] + row.quantity],
               books.totals[k0 := Delta(total.quantity + direction * row.quantity,
                                        total.amount + direction * row.amount)]);
    forall k | k in keys ensures TracksAt(balances, rows + [row], direction, r, k) {
      assert TracksAt(balances, rows, direction, books, k);
      RecordedAt(balances, rows, direction, row, k);
    }
  }

  lemma {:induction false} RecordedAt(balances: map<Key, Balance>, rows: seq<Txn>, direction: int, row: Txn, k: Key)
    ensures NextAfter(balances, rows + [row], k) == NextAfter(balances, rows, k) + if row.key
         == k then row.quantity else 0
    ensures var total, next := TotalOf(rows, direction, k), TotalOf(rows + [row], direction, k);
            next == if row.key == k
                    then Delta(total.quantity + direction * row.quantity, total.amount + direction * row.amount)
                    else total
  {
    SumSnoc(rows, row, QuantityOn(k));
    SumSnoc(rows, row, AmountOn(k));
    var quantity, amount := Sum(rows, QuantityOn(k)), Sum(rows, AmountOn(k));
    assert direction * (quantity + row.quantity) == direction * quantity + direction * row.quantity;
    assert direction * (amount + row.amount) == direction * amount + direction * row.amount;
  }

  method ApplyTotals(locked: map<Key, Balance>, ordered: seq<Key>, direction: int, totals: map<Key, Delta>)
    returns (r: Result<map<Key, Balance>>)
    requires forall k :: k in ordered ==> k in locked && k in totals
    ensures r == ApplyAll(locked, ordered, direction, totals)
  {
    var now := locked;
    for i := 0 to |ordered|
      invariant forall k :: k in ordered ==> k in now
      invariant ApplyAll(locked, ordered, direction, totals) == ApplyAll(now, ordered[i..], direction, totals)
    {
      var k := ordered[i];
      assert k in ordered && ordered[i..][1..] == ordered[i + 1..];
      var b;
      if direction == 1 {
        b := ApplyInbound(now[k], totals[k].quantity, totals[k].amount);
      } else {
        b := ApplyOutbound(now[k], totals[k].quantity, totals[k].amount);
      }
      if b.Err? { return Err(b.error); }
      now := now[k := b.value];
    }
    return Ok(now);
  }

  // One line of create_receipt: compare-and-set, receipt line, ledger row, running books.
  method ReceiveOne(balances: map<Key, Balance>, warehouse: int, receipt: nat, w: Receiving, item: ReceiveRequest,
          books: Books, keys: seq<Key>)
    returns (r: Result<Receiving>, next: Books)
    requires item.poLine < |w.poLines| && item.quantity > 0 && w.poLines[item.poLine].price >= 0
    requires Key(warehouse, w.poLines[item.poLine].material) in keys
    requires Tracks(balances, w.rows, 1, books, keys)
    ensures r == ReceiveLine(balances, warehouse, receipt, w, item)
    ensures r.Ok? ==> Tracks(balances, r.value.rows, 1, next, keys) && SameGoods(w.poLines, r.value.poLines)
  {
    var line := w.poLines[item.poLine];
    if line.received + item.quantity > line.ordered { return Err(ReceiptExceedsRemaining), books; }
    var amount := LineAmount(item.quantity, line.price);
    var key := Key(warehouse, line.material);
    assert TracksAt(balances, w.rows, 1, books, key);
    hide Tracks, Sum, LineAmount;
    var row := Txn(PurchaseIn, key, item.quantity, line.price, amount, books.running[key] + item.quantity,
                   ReceiptSource(receipt, |w.lines|), None);
    var written := WriteTransaction(w.rows, row);
    assert written.Ok?;
    next := Record(balances, w.rows, 1, books, keys, row);
    r := Ok(Receiving(w.poLines[item.poLine := line.(received := line.received + item.quantity)],
                      w.lines + [ReceiptLine(receipt, item.poLine, line.material, item.quantity, line.price, amount)],
                      written.value));
  }

  lemma {:induction false} ReceiveLinesNext(balances: map<Key, Balance>, warehouse: int, receipt: nat, w: Receiving,
          items: seq<ReceiveRequest>, i: nat)
    requires forall j :: 0 <= j < |items| ==> items[j].poLine < |w.poLines|
    requires i < |items|
    ensures ReceiveLines(balances, warehouse, receipt, w, items[i..])
      == match ReceiveLine(balances, warehouse, receipt, w, items[i])
         case Ok(next) => ReceiveLines(balances, warehouse, receipt, next, items[i + 1..])
         case Err(e) => Err(e)
  {
    assert items[i..][0] == items[i] && items[i..][1..] == items[i + 1..];
  }

  // The order lines of `poLines` sell the same goods at the same prices as those of `base`.
  predicate SameGoods(base: seq<PoLine>, poLines: seq<PoLine>) {
    && |poLines| == |base|
    && forall j :: 0 <= j < |base| ==> poLines[j].price == base[j].price && poLines[j].material == base[j].material
  }

  // The posting loop of create_receipt.
  method ReceiveAll(balances: map<Key, Balance>, warehouse: int, receipt: nat, start: Receiving,
          items: seq<ReceiveRequest>, keys: seq<Key>)
    returns (r: Result<Receiving>, books: Books)
    requires forall i :: 0 <= i < |items| ==> items[i].poLine < |start.poLines| && items[i].quantity > 0
    requires forall j :: 0 <= j < |start.poLines| ==> start.poLines[j].price >= 0
    requires forall i :: 0 <= i < |items| ==> Key(warehouse, start.poLines[items[i].poLine].material) in keys
    requires start.rows == []
    ensures r == ReceiveLines(balances, warehouse, receipt, start, items)
    ensures r.Ok? ==> Tracks(balances, r.value.rows, 1, books, keys)
  {
    var w := start;
    books := OpenBooks(balances, 1, keys);
    assert items[0..] == items;
    for i := 0 to |items|
      invariant SameGoods(start.poLines, w.poLines)
      invariant ReceiveLines(balances, warehouse, receipt, start, items) == ReceiveLines(balances, warehouse, receipt,
                                                                                         w, items[i..])
      invariant Tracks(balances, w.rows, 1, books, keys)
    {
      ReceiveLinesNext(balances, warehouse, receipt, w, items, i);
      var next;
      next, books := ReceiveOne(balances, warehouse, receipt, w, items[i], books, keys);
      if next.Err? { return next, books; }
      w := next.value;
    }
    return Ok(w), books;
  }

  // One line of reverse_receipt: everything by the original row, never by the current average.
  method ReverseOne(db: Db, receipt: nat, w: Reversing, n: nat, books: Books, keys: seq<Key>)
    returns (r: Result<Reversing>, next: Books)
    requires receipt < |db.receipts| && n < |db.receiptLines| && db.receiptLines[n].poLine < |w.poLines|
    requires Key(db.receipts[receipt].warehouse, db.receiptLines[n].material) in keys
    requires Tracks(db.balances, w.rows, -1, books, keys)
    ensures r == ReverseLine(db, receipt, w, n)
    ensures r.Ok? ==> Tracks(db.balances, r.value.rows, -1, next, keys) && |r.value.poLines| == |w.poLines|
  {
    var l := db.receiptLines[n];
    var line := w.poLines[l.poLine];
    if line.received < l.quantity { return Err(Conflict), books; }
    var original := FindRow(db.ledger, ReceiptSource(receipt, n));
    if original.None? { return Err(InventoryBalanceMismatch), books; }
    if IsReversed(db.ledger + w.rows, original.value) { return Err(ReceiptAlreadyReversed), books; }
    var o := db.ledger[original.value];
    var key := Key(db.receipts[receipt].warehouse, l.material);
    assert TracksAt(db.balances, w.rows, -1, books, key);
    var row := Txn(PurchaseInReversal, key, -l.quantity, o.unitCost, -o.amount, books.running[key] - l.quantity,
                   ReversalSource(receipt, n), original);
    var written := WriteTransaction(w.rows, row);
    if written.Err? { return Err(ValidationError), books; }
    next := Record(db.balances, w.rows, -1, books, keys, row);
    r := Ok(Reversing(w.poLines[l.poLine := line.(received := line.received - l.quantity)], written.value));
  }

  lemma {:induction false} ReverseLinesNext(db: Db, receipt: nat, w: Reversing, ns: seq<nat>, i: nat)
    requires receipt < |db.receipts|
    requires forall j :: 0 <= j < |ns| ==> ns[j] < |db.receiptLines| && db.receiptLines[ns[j]].poLine < |w.poLines|
    requires i < |ns|
    ensures ReverseLines(db, receipt, w, ns[i..])
      == match ReverseLine(db, receipt, w, ns[i])
         case Ok(next) => ReverseLines(db, receipt, next, ns[i + 1..])
         case Err(e) => Err(e)
  {
    assert ns[i..][0] == ns[i] && ns[i..][1..] == ns[i + 1..];
  }

  method ReverseAll(db: Db, receipt: nat, ns: seq<nat>, keys: seq<Key>) returns (r: Result<Reversing>, books: Books)
    requires receipt < |db.receipts|
    requires forall i :: 0 <= i < |ns| ==> ns[i] < |db.receiptLines| && db.receiptLines[ns[i]].poLine < |db.poLines|
    requires forall i :: 0 <= i < |ns| ==> Key(db.receipts[receipt].warehouse, db.receiptLines[ns[i]].material) in keys
    ensures r == ReverseLines(db, receipt, Reversing(db.poLines, []), ns)
    ensures r.Ok? ==> Tracks(db.balances, r.value.rows, -1, books, keys)
  {
    hide ReverseLine, Tracks;
    var w := Reversing(db.poLines, []);
    books := OpenBooks(db.balances, -1, keys);
    assert ns[0..] == ns;
    for i := 0 to |ns|
      invariant |w.poLines| == |db.poLines|
      invariant ReverseLines(db, receipt, Reversing(db.poLines, []), ns) == ReverseLines(db, receipt, w, ns[i..])
      invariant Tracks(db.balances, w.rows, -1, books, keys)
    {
      ReverseLinesNext(db, receipt, w, ns, i);
      var next;
      next, books := ReverseOne(db, receipt, w, ns[i], books, keys);
      if next.Err? { return next, books; }
      w := next.value;
    }
    return Ok(w), books;
  }

  // Lock, post, apply.
  method ReceiveAndApply(db: Db, warehouse: int, items: seq<ReceiveRequest>) returns (r: Result<Received>)
    requires forall i :: 0 <= i < |items| ==> items[i].poLine < |db.poLines| && items[i].quantity > 0
    requires forall j :: 0 <= j < |db.poLines| ==> db.poLines[j].price >= 0
    ensures r == ReceiveGoods(db, warehouse, items)
  {
    var keys := KeysOrdered(db.poLines, warehouse, items);
    var ordered, locked := LockBalances(db.balances, keys);
    assert forall i :: 0 <= i < |items| ==> keys[i] in keys;
    var w, books := ReceiveAll(db.balances, warehouse, |db.receipts|, Receiving(db.poLines, db.receiptLines, []), items,
                               keys);
    if w.Err? { return Err(w.error); }
    var totals := map k | k in keys && k in books.totals :: books.totals[k];
    TotalsTracked(db.balances, w.value.rows, 1, books, keys, totals);
    var balances := ApplyTotals(locked, ordered, 1, totals);
    if balances.Err? { return Err(balances.error); }
    return Ok(Received(w.value, balances.value));
  }

  lemma {:induction false} TotalsTracked(balances: map<Key, Balance>, rows: seq<Txn>, direction: int, books: Books,
          keys: seq<Key>, totals: map<Key, Delta>)
    requires Tracks(balances, rows, direction, books, keys)
    requires totals == map k | k in keys && k in books.totals :: books.totals[k]
    ensures totals == Totals(rows, direction, keys)
  {
    forall k | k in keys ensures k in totals && totals[k] == TotalOf(rows, direction, k) {
      assert TracksAt(balances, rows, direction, books, k);
    }
  }

  method UndoAndApply(db: Db, receipt: nat) returns (r: Result<Undone>)
    requires receipt < |db.receipts|
    requires forall n :: 0 <= n < |db.receiptLines| ==> db.receiptLines[n].poLine < |db.poLines|
    ensures r == UndoGoods(db, receipt)
  {
    hide ReverseLines, SortKeys, LinesOf, Tracks;
    var ns := LinesOf(db.receiptLines, receipt);
    LinesOfMembers(db.receiptLines, receipt);
    var keys := KeysFor(db.receiptLines, db.receipts[receipt].warehouse, ns);
    var ordered, locked := LockBalances(db.balances, keys);
    assert forall i :: 0 <= i < |ns| ==> keys[i] in keys;
    var w, books := ReverseAll(db, receipt, ns, keys);
    if w.Err? { return Err(w.error); }
    var totals := map k | k in keys && k in books.totals :: books.totals[k];
    TotalsTracked(db.balances, w.value.rows, -1, books, keys, totals);
    var balances := ApplyTotals(locked, ordered, -1, totals);
    if balances.Err? { return Err(balances.error); }
    return Ok(Undone(w.value, balances.value));
  }

  method CheckRequests(items: seq<ReceiveRequest>) returns (r: Result<()>)
    ensures r == RequestsOk(items, {})
  {
    var seen: set<nat> := {};
    for i := 0 to |items|
      invariant RequestsOk(items, {}) == RequestsOk(items[i..], seen)
    {
      assert items[i..][1..] == items[i + 1..];
      if items[i].poLine in seen { return Err(ReceiptDuplicateItem); }
      seen := seen + {items[i].poLine};
      if items[i].quantity <= 0 { return Err(ReceiptQuantityPositive); }
    }
    return Ok(());
  }

  method CheckLines(poLines: seq<PoLine>, m: Master, po: nat, items: seq<ReceiveRequest>) returns (r: Result<()>)
    ensures r == LinesOk(poLines, m, po, items)
  {
    for i := 0 to |items|
      invariant LinesOk(poLines, m, po, items) == LinesOk(poLines, m, po, items[i..])
    {
      assert items[i..][1..] == items[i + 1..];
      var j := items[i].poLine;
      if j >= |poLines| { return Err(PoItemNotFound); }
      if poLines[j].po != po { return Err(ReceiptItemNotInPo); }
      var material := Active(m.materials, poLines[j].material, NotFound, MasterDataDisabled);
      if material.Err? { return material; }
    }
    return Ok(());
  }

  method RecomputeStatus(s: Session, po: nat)
    requires po < |s.db.pos|
    modifies s
    ensures s.db == old(s.db).(pos := WithStatus(old(s.db.pos), s.db.poLines, po))
  {
    var any, allZero, allFull := false, true, true;
    var lines := s.db.poLines;
    for j := 0 to |lines|
      invariant any <==> exists i :: 0 <= i < j && lines[i].po == po
      invariant allZero <==> forall i :: 0 <= i < j && lines[i].po == po ==> lines[i].received == 0
      invariant allFull <==> forall i :: 0 <= i < j && lines[i].po == po ==> lines[i].received == lines[i].ordered
    {
      if lines[j].po == po {
        any := true;
        if lines[j].received != 0 { allZero := false; }
        if lines[j].received != lines[j].ordered { allFull := false; }
      }
    }
    if any {
      var target := if allZero then PoConfirmed else if allFull then PoReceived else PoPartiallyReceived;
      if target != s.db.pos[po].status {
        s.db := s.db.(pos := s.db.pos[po := s.db.pos[po].(status := target)]);
      }
    }
  }

  method CheckReceipt(db: Db, m: Master, po: nat, warehouse: int, items: seq<ReceiveRequest>) returns (r: Result<()>)
    ensures r == Precheck(db, m, po, warehouse, items)
  {
    if items == [] { return Err(ReceiptEmptyItems); }
    if po >= |db.pos| { return Err(PoNotFound); }
    if !Receivable(db.pos[po].status) { return Err(PoNotReceivable); }
    var active := Active(m.warehouses, warehouse, NotFound, MasterDataDisabled);
    if active.Err? { return active; }
    r := CheckRequests(items);
    if r.Err? { return r; }
    r := CheckLines(db.poLines, m, po, items);
  }

  method CreateReceipt(s: Session, m: Master, po: nat, warehouse: int,
          items: seq<ReceiveRequest>) returns (reply: Result<()>)
    requires OrderKeys(s.db.pos, s.db.poLines, s.db.sources, s.db.prLines)
    modifies s
    ensures Settles(CreatedReceipt(old(s.db), m, po, warehouse, items), old(s.db), s.db, reply)
  {
    var saved := s.db;
    var checked := CheckReceipt(s.db, m, po, warehouse, items);
    if checked.Err? { return checked; }
    OrderedFacts(s.db.poLines, m, po, items);
    s.db := s.db.(receipts := s.db.receipts + [Receipt(po, warehouse, Posted)]);
    var r := ReceiveAndApply(saved, warehouse, Ordered(items));
    if r.Err? {
      s.Rollback(saved);
      return Err(r.error);
    }
    s.db := s.db.(poLines := r.value.w.poLines, receiptLines := r.value.w.lines,
                  ledger := s.db.ledger + r.value.w.rows, balances := r.value.balances);
    RecomputeStatus(s, po);
    s.db := s.db.(audit := s.db.audit + [Audit(ReceiptPosted, |saved.receipts|)]);
    return Ok(());
  }

  method ReverseReceipt(s: Session, receipt: nat) returns (reply: Result<()>)
    requires ReceiptKeys(s.db.pos, s.db.poLines, s.db.receipts, s.db.receiptLines)
    modifies s
    ensures Settles(ReversedReceipt(old(s.db), receipt), old(s.db), s.db, reply)
  {
    var saved := s.db;
    if receipt >= |s.db.receipts| { return Err(ReceiptNotFound); }
    var doc := s.db.receipts[receipt];
    if doc.status == Reversed { return Err(ReceiptAlreadyReversed); }
    s.db := s.db.(receipts := s.db.receipts[receipt := doc.(status := Reversed)]);
    var r := UndoAndApply(saved, receipt);
    if r.Err? {
      s.Rollback(saved);
      return Err(r.error);
    }
    s.db := s.db.(poLines := r.value.w.poLines, ledger := s.db.ledger + r.value.w.rows, balances := r.value.balances);
    RecomputeStatus(s, doc.po);
    s.db := s.db.(audit := s.db.audit + [Audit(ReceiptWasReversed, receipt)]);
    return Ok(());
  }
}
