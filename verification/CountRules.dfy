/** Stock counts: a frozen line is a prefix of the ledger, and posting makes the book what was counted. */
module CountRules {
  import opened Sums
  import opened Money
  import opened Tables
  import opened Inventory
  import opened Counts
  import LedgerRules

  // ---------------------------------------------------------------------------------------------
  // Snapshots and watermarks
  // ---------------------------------------------------------------------------------------------

  function Book(item: CountItem): Balance {
    Balance(item.bookQuantity, item.bookTotal, item.bookAverage)
  }

  // The frozen book is what the ledger summed to up to the watermark, and the watermark is the key's last row there.
  predicate FrozenAt(ledger: seq<Txn>, key: Key, mark: nat, book: Balance) {
    mark <= |ledger| && LastRow(ledger[..mark], key) == mark && Agrees(ledger[..mark], key, book)
  }

  // Difference, rate and amount follow from what was counted and what was frozen: a surplus is valued at its positive
  // rate, a loss at the frozen average, and a line without a difference at nothing.
  predicate DerivedFits(item: CountItem) {
    && item.physical >= 0 && item.difference == item.physical - item.bookQuantity
    && (item.difference > 0 ==>
          && item.rate.Some? && item.rate.value > 0
          && item.amount == LineAmount(item.difference, item.rate.value))
    && (item.difference < 0 ==> item.rate.None? && item.amount == -LineAmount(-item.difference, item.bookAverage))
    && (item.difference == 0 ==> item.rate.None? && item.amount == 0)
  }

  predicate ItemFits(ledger: seq<Txn>, warehouse: int, item: CountItem) {
    FrozenAt(ledger, Key(warehouse, item.material), item.watermark, Book(item)) && DerivedFits(item)
  }

  predicate DistinctMaterials(items: seq<CountItem>) {
    forall m, n :: 0 <= m < n < |items| ==> items[m].material != items[n].material
  }

  // Four eyes on every posted count, unless the override was used and says so.
  predicate ApprovalFits(c: Count) {
    c.status == CountPosted ==> c.approvedBy.Some? && (c.approvedBy.value != c.countedBy || c.selfApproved)
  }

  predicate CountFits(ledger: seq<Txn>, c: Count) {
    && (forall n :: 0 <= n < |c.items| ==> ItemFits(ledger, c.warehouse, c.items[n]))
    && DistinctMaterials(c.items) && ApprovalFits(c)
  }

  // Nothing moved on the key between the snapshot of a line and the row that posted it.
  predicate PostedAtMark(counts: seq<Count>, ledger: seq<Txn>, i: nat)
    requires i < |ledger|
  {
    match ledger[i].source
    case CountSource(c, n) =>
      c < |counts| && n < |counts[c].items| && LastRow(ledger[..i], ledger[i].key) == counts[c].items[n].watermark
    case _ => true
  }

  ghost predicate CountsFit(counts: seq<Count>, ledger: seq<Txn>) {
    && (forall c :: 0 <= c < |counts| ==> CountFits(ledger, counts[c]))
    && (forall i :: 0 <= i < |ledger| ==> PostedAtMark(counts, ledger, i))
  }

  // ---------------------------------------------------------------------------------------------
  // Freezing
  // ---------------------------------------------------------------------------------------------

  lemma {:induction false} LastRowOfPrefix(ledger: seq<Txn>, key: Key)
    ensures LastRow(ledger[..LastRow(ledger, key)], key) == LastRow(ledger, key)
  {
    var mark := LastRow(ledger, key);
    if mark == 0 {
      assert ledger[..0] == [];
    } else {
      assert ledger[..mark][mark - 1] == ledger[mark - 1];
    }
  }

  // A snapshot freezes the ledger prefix up to the watermark.
  lemma {:induction false} SnapshotFreezes(db: Db, key: Key)
    requires StockOk(db.ledger, db.balances)
    ensures var s := TakeSnapshot(db, key); FrozenAt(db.ledger, key, s.watermark, s.book)
  {
    NeverMoved(db.ledger, db.balances, key);
    LastRowOfPrefix(db.ledger, key);
    QuietSince(db.ledger, key, LastRow(db.ledger, key));
  }

  lemma {:induction false} FrozenStays(ledger: seq<Txn>, more: seq<Txn>, key: Key, mark: nat, book: Balance)
    requires FrozenAt(ledger, key, mark, book)
    ensures FrozenAt(ledger + more, key, mark, book)
  {
    assert (ledger + more)[..mark] == ledger[..mark];
  }

  lemma {:induction false} CountStays(ledger: seq<Txn>, more: seq<Txn>, c: Count)
    requires CountFits(ledger, c)
    ensures CountFits(ledger + more, c)
  {
    forall n | 0 <= n < |c.items| ensures ItemFits(ledger + more, c.warehouse, c.items[n]) {
      assert ItemFits(ledger, c.warehouse, c.items[n]);
      FrozenStays(ledger, more, Key(c.warehouse, c.items[n].material), c.items[n].watermark, Book(c.items[n]));
    }
  }

  // Rows of receipts and reversals leave every count alone.
  lemma {:induction false} OtherRowsKeepCounts(counts: seq<Count>, ledger: seq<Txn>, more: seq<Txn>)
    requires CountsFit(counts, ledger)
    requires forall k :: 0 <= k < |more| ==> !more[k].source.CountSource?
    ensures CountsFit(counts, ledger + more)
  {
    forall c | 0 <= c < |counts| ensures CountFits(ledger + more, counts[c]) { CountStays(ledger, more, counts[c]); }
    forall i | 0 <= i < |ledger + more| ensures PostedAtMark(counts, ledger + more, i) {
      if i < |ledger| {
        assert PostedAtMark(counts, ledger, i);
        assert (ledger + more)[..i] == ledger[..i];
      }
    }
  }

  // The event guard implies the state guard: a key whose last row is still the watermark still has the frozen book.
  lemma {:induction false} UnmovedKeepsBook(ledger: seq<Txn>, balances: map<Key, Balance>, key: Key, mark: nat,
          book: Balance)
    requires StockOk(ledger, balances) && FrozenAt(ledger, key, mark, book)
    requires LastRow(ledger, key) == mark
    ensures BalanceOf(balances, key) == book
  {
    NeverMoved(ledger, balances, key);
    QuietSince(ledger, key, mark);
  }

  // ---------------------------------------------------------------------------------------------
  // Building and editing lines
  // ---------------------------------------------------------------------------------------------

  ghost predicate BuiltItems(ledger: seq<Txn>, warehouse: int, items: seq<CountItem>) {
    (forall n :: 0 <= n < |items| ==> ItemFits(ledger, warehouse, items[n])) && DistinctMaterials(items)
  }

  lemma {:induction false} NewItemFits(db: Db, warehouse: int, line: CountRequest)
    requires StockOk(db.ledger, db.balances) && line.physical >= 0
    requires NewItem(TakeSnapshot(db, Key(warehouse, line.material)), line).Ok?
    ensures var item := NewItem(TakeSnapshot(db, Key(warehouse, line.material)), line).value;
            ItemFits(db.ledger, warehouse, item) && item.material == line.material
  {
    SnapshotFreezes(db, Key(warehouse, line.material));
  }

  // Editing a line keeps its snapshot and its watermark, and takes the rate of the payload.
  lemma {:induction false} KeptItemFits(ledger: seq<Txn>, warehouse: int, item: CountItem, line: CountRequest)
    requires ItemFits(ledger, warehouse, item) && line.physical >= 0 && line.material == item.material
    requires KeptItem(item, line).Ok?
    ensures ItemFits(ledger, warehouse, KeptItem(item, line).value)
    ensures Book(KeptItem(item, line).value) == Book(item) && KeptItem(item, line).value.watermark == item.watermark
    ensures KeptItem(item, line).value.physical == line.physical
    ensures KeptItem(item, line).value.difference > 0 ==> KeptItem(item, line).value.rate == line.rate
  {
  }

  lemma {:induction false} NewItemsFit(db: Db, m: Master, warehouse: int, lines: seq<CountRequest>, seen: set<int>,
          sofar: seq<CountItem>)
    requires StockOk(db.ledger, db.balances) && BuiltItems(db.ledger, warehouse, sofar)
    requires forall n :: 0 <= n < |sofar| ==> sofar[n].material in seen
    requires Counts.RequestsOk(m, lines, seen).Ok? && NewItems(db, warehouse, lines, sofar).Ok?
    ensures BuiltItems(db.ledger, warehouse, NewItems(db, warehouse, lines, sofar).value)
    decreases |lines|
  {
    if lines != [] {
      var item := NewItem(TakeSnapshot(db, Key(warehouse, lines[0].material)), lines[0]).value;
      NewItemFits(db, warehouse, lines[0]);
      NewItemsFit(db, m, warehouse, lines[1..], seen + {lines[0].material}, sofar + [item]);
    }
  }

  lemma {:induction false} BuiltSnoc(ledger: seq<Txn>, warehouse: int, items: seq<CountItem>, item: CountItem)
    requires BuiltItems(ledger, warehouse, items) && ItemFits(ledger, warehouse, item)
    requires !exists i :: i in items && i.material == item.material
    ensures BuiltItems(ledger, warehouse, items + [item])
  {
    hide ItemFits;
    forall n | 0 <= n < |items| ensures items[n].material != item.material { assert items[n] in items; }
  }

  lemma {:induction false} RebuildFits(db: Db, m: Master, warehouse: int, existing: seq<CountItem>,
          lines: seq<CountRequest>, sofar: seq<CountItem>)
    requires StockOk(db.ledger, db.balances) && BuiltItems(db.ledger, warehouse, existing)
    requires BuiltItems(db.ledger, warehouse, sofar)
    requires Rebuild(db, m, warehouse, existing, lines, sofar).Ok?
    ensures BuiltItems(db.ledger, warehouse, Rebuild(db, m, warehouse, existing, lines, sofar).value)
    decreases |lines|
  {
    if lines != [] {
      hide ItemFits, StockOk, NewItem, KeptItem;
      var line, kept := lines[0], ItemFor(existing, lines[0].material);
      var item := if kept.Some? then KeptItem(kept.value, line).value
                  else NewItem(TakeSnapshot(db, Key(warehouse, line.material)), line).value;
      if kept.Some? {
        var n :| 0 <= n < |existing| && existing[n] == kept.value;
        KeptItemFits(db.ledger, warehouse, kept.value, line);
      } else {
        NewItemFits(db, warehouse, line);
      }
      BuiltSnoc(db.ledger, warehouse, sofar, item);
      RebuildFits(db, m, warehouse, existing, lines[1..], sofar + [item]);
    }
  }

  // ---------------------------------------------------------------------------------------------
  // Posting one line
  // ---------------------------------------------------------------------------------------------

  // Nothing moved on the line's key since its snapshot.
  predicate Current(ledger: seq<Txn>, warehouse: int, item: CountItem) {
    LastRow(ledger, Key(warehouse, item.material)) == item.watermark
  }

  // The adjustment does not take more value than the key has.
  predicate Bearable(item: CountItem) {
    item.bookTotal + item.amount >= 0
  }

  predicate Postable(ledger: seq<Txn>, warehouse: int, item: CountItem) {
    item.difference != 0 ==> Current(ledger, warehouse, item) && Bearable(item)
  }

  // A surplus can always be posted; a loss at the frozen average may exceed the value by a rounding residue.
  lemma {:induction false} MoveByMeans(item: CountItem)
    requires DerivedFits(item) && item.bookQuantity >= 0 && item.bookTotal >= 0 && item.difference != 0
    requires item.bookAverage >= 0
    ensures MoveBy(Book(item), item)
         == if Bearable(item) then Ok(Moved(Book(item), item.difference, item.amount))
            else Err(InventoryBalanceMismatch)
    ensures item.bookQuantity + item.difference == item.physical
    ensures item.difference > 0 ==> item.amount >= 0 && item.rate.Some? && item.rate.value > 0
    ensures item.difference < 0 ==> item.amount <= 0
  {
    assert item.bookTotal - -item.amount == item.bookTotal + item.amount && -(-item.amount) == item.amount;
    assert -(-item.difference) == item.difference;
  }

  lemma {:induction false} AdjustRowSigned(warehouse: int, item: CountItem, after: int, source: TxnSource)
    requires DerivedFits(item) && item.bookQuantity >= 0 && item.bookTotal >= 0 && item.difference != 0
    requires item.bookAverage >= 0
    ensures Signed(LedgerRules.AdjustRow(warehouse, item, after, source))
  {
    MoveByMeans(item);
  }

  // What posting needs to know of a line: derived from its snapshot, and found as frozen while nothing moved.
  predicate ItemReady(db: Db, locked: map<Key, Balance>, warehouse: int, item: CountItem) {
    var key := Key(warehouse, item.material);
    && DerivedFits(item) && item.bookQuantity >= 0 && item.bookTotal >= 0 && item.bookAverage >= 0
    && (item.difference != 0 && Current(db.ledger, warehouse, item) ==>
          key in locked && locked[key] == Book(item) && BalanceOf(db.balances, key) == Book(item))
  }

  lemma {:induction false} FrozenItemReady(db: Db, locked: map<Key, Balance>, warehouse: int, item: CountItem)
    requires StockOk(db.ledger, db.balances) && ItemFits(db.ledger, warehouse, item)
    requires var key := Key(warehouse, item.material);
      (item.difference != 0 ==> key in locked) && BalanceOf(locked, key) == BalanceOf(db.balances, key)
    ensures ItemReady(db, locked, warehouse, item)
  {
    var key := Key(warehouse, item.material);
    if Current(db.ledger, warehouse, item) {
      UnmovedKeepsBook(db.ledger, db.balances, key, item.watermark, Book(item));
    }
  }

  function RowOf(warehouse: int, doc: nat, item: CountItem, n: nat): Txn {
    LedgerRules.AdjustRow(warehouse, item, item.physical, CountSource(doc, n))
  }

  function Adjusted(item: CountItem): Balance {
    Moved(Book(item), item.difference, item.amount)
  }

  // Both guards, the row and the balance of one differing line: it posts exactly when it is current and bearable.
  lemma {:induction false} PostItemMeans(db: Db, locked: map<Key, Balance>, warehouse: int, doc: nat, w: Posting,
          n: nat, item: CountItem)
    requires ItemReady(db, locked, warehouse, item) && item.difference != 0
    requires Key(warehouse, item.material) !in KeysOf(w.rows)
    requires BalanceOf(w.balances, Key(warehouse, item.material)) == BalanceOf(locked, Key(warehouse, item.material))
    ensures PostItem(db, warehouse, doc, w, n, item)
      == if !Current(db.ledger, warehouse, item) then Err(ReconciliationBalanceChanged)
         else if !Bearable(item) then Err(InventoryBalanceMismatch)
         else Ok(Posting(w.rows + [RowOf(warehouse, doc, item, n)],
                         w.balances[Key(warehouse, item.material) := Adjusted(item)]))
  {
    NoRowsNoSum(w.rows, Key(warehouse, item.material));
    if Current(db.ledger, warehouse, item) {
      MoveByMeans(item);
      AdjustRowSigned(warehouse, item, item.physical, CountSource(doc, n));
    }
  }

  // ---------------------------------------------------------------------------------------------
  // Posting a whole count
  // ---------------------------------------------------------------------------------------------

  // Row k adjusts one of the first n lines, at its watermark.
  predicate AdjustsAt(ledger: seq<Txn>, warehouse: int, doc: nat, items: seq<CountItem>, n: nat, row: Txn)
    requires n <= |items|
  {
    match row.source
    case CountSource(c, m) =>
      && c == doc && m < n && items[m].difference != 0 && row == RowOf(warehouse, doc, items[m], m)
      && Current(ledger, warehouse, items[m])
    case _ => false
  }

  ghost predicate RowsSoFar(ledger: seq<Txn>, warehouse: int, doc: nat, items: seq<CountItem>, n: nat, rows: seq<Txn>)
    requires n <= |items|
  {
    && (forall k :: 0 <= k < |rows| ==> AdjustsAt(ledger, warehouse, doc, items, n, rows[k]))
    && (forall k, l :: 0 <= k < l < |rows| ==> rows[k].source != rows[l].source)
  }

  // Line m is settled: its row is written, and the book of its key is what was counted.
  predicate Settled(warehouse: int, doc: nat, w: Posting, item: CountItem, m: nat) {
    var key := Key(warehouse, item.material);
    item.difference != 0 ==>
      && LedgerRules.Recorded(w.rows, CountSource(doc, m))
      && key in w.balances && w.balances[key].quantity == item.physical
      && w.balances[key].total == item.bookTotal + item.amount
  }

  ghost predicate StockSoFar(ledger: seq<Txn>, locked: map<Key, Balance>, w: Posting) {
    w.balances == Post(locked, w.rows) && StockOk(ledger + w.rows, w.balances)
  }

  ghost predicate PostedSoFar(db: Db, locked: map<Key, Balance>, warehouse: int, doc: nat, items: seq<CountItem>,
          n: nat, w: Posting)
    requires n <= |items|
  {
    && StockSoFar(db.ledger, locked, w)
    && RowsSoFar(db.ledger, warehouse, doc, items, n, w.rows)
    && (forall m :: 0 <= m < n ==> Settled(warehouse, doc, w, items[m], m))
  }

  ghost predicate CanPost(db: Db, locked: map<Key, Balance>, warehouse: int, items: seq<CountItem>) {
    DistinctMaterials(items) && forall n :: 0 <= n < |items| ==> ItemReady(db, locked, warehouse, items[n])
  }

  lemma {:induction false} KeyStillUnposted(ledger: seq<Txn>, warehouse: int, doc: nat, items: seq<CountItem>, n: nat,
          rows: seq<Txn>)
    requires n < |items| && DistinctMaterials(items) && RowsSoFar(ledger, warehouse, doc, items, n, rows)
    ensures Key(warehouse, items[n].material) !in KeysOf(rows)
  {
    forall t | t in rows ensures t.key != Key(warehouse, items[n].material) {
      var k :| 0 <= k < |rows| && rows[k] == t;
      assert AdjustsAt(ledger, warehouse, doc, items, n, rows[k]);
    }
  }

  lemma {:induction false} UntouchedBalance(locked: map<Key, Balance>, rows: seq<Txn>, key: Key)
    requires key !in KeysOf(rows)
    ensures BalanceOf(Post(locked, rows), key) == BalanceOf(locked, key)
    ensures key in locked ==> key in Post(locked, rows)
  {
  }

  lemma {:induction false} OneRowKeepsStock(ledger: seq<Txn>, balances: map<Key, Balance>, item: CountItem, row: Txn)
    requires StockOk(ledger, balances) && row.key in balances && balances[row.key] == Book(item)
    requires Signed(row) && row.quantity == item.difference && row.amount == item.amount
    requires row.after == item.physical == item.bookQuantity + item.difference >= 0 && Bearable(item)
    ensures Post(balances, [row]) == balances[row.key := Adjusted(item)]
    ensures StockOk(ledger + [row], Post(balances, [row]))
  {
    SumSnoc([], row, QuantityOn(row.key));
    SumSnoc([], row, AmountOn(row.key));
    assert [] + [row] == [row] && [row][..1] == [row];
    assert KeysOf([row]) == {row.key};
    assert RunsAt(balances, [row], 0);
    PostKeepsStock(ledger, balances, [row]);
    PostIs(balances, [row], balances[row.key := Adjusted(item)]);
  }

  lemma {:induction false} NextStock(ledger: seq<Txn>, locked: map<Key, Balance>, w: Posting, item: CountItem, row: Txn)
    requires StockSoFar(ledger, locked, w)
    requires row.key in w.balances && w.balances[row.key] == Book(item) && Bearable(item)
    requires Signed(row) && row.quantity == item.difference && row.amount == item.amount
    requires row.after == item.physical == item.bookQuantity + item.difference >= 0
    ensures StockSoFar(ledger, locked, Posting(w.rows + [row], w.balances[row.key := Adjusted(item)]))
  {
    OneRowKeepsStock(ledger + w.rows, w.balances, item, row);
    Regroup(ledger, w.rows, [row]);
    PostInBatches(locked, w.rows, [row]);
  }

  lemma {:induction false} NextRowFits(ledger: seq<Txn>, warehouse: int, doc: nat, items: seq<CountItem>, n: nat,
          next: nat, rows: seq<Txn>)
    requires next == n + 1 <= |items| && items[n].difference != 0 && Current(ledger, warehouse, items[n])
    requires RowsSoFar(ledger, warehouse, doc, items, n, rows)
    ensures RowsSoFar(ledger, warehouse, doc, items, next, rows + [RowOf(warehouse, doc, items[n], n)])
  {
    var more := rows + [RowOf(warehouse, doc, items[n], n)];
    forall k | 0 <= k < |more| ensures AdjustsAt(ledger, warehouse, doc, items, next, more[k]) {
      if k < |rows| { assert AdjustsAt(ledger, warehouse, doc, items, n, rows[k]); }
    }
    forall k, l | 0 <= k < l < |more| ensures more[k].source != more[l].source {
      assert AdjustsAt(ledger, warehouse, doc, items, n, rows[k]);
    }
  }

  lemma {:induction false} NextSettled(warehouse: int, doc: nat, items: seq<CountItem>, w: Posting, n: nat, row: Txn,
          b: Balance)
    requires n < |items| && DistinctMaterials(items)
    requires forall m :: 0 <= m < n ==> Settled(warehouse, doc, w, items[m], m)
    requires row.key == Key(warehouse, items[n].material) && row.source == CountSource(doc, n)
    requires b.quantity == items[n].physical && b.total == items[n].bookTotal + items[n].amount
    ensures forall m :: 0 <= m < n + 1 ==>
      Settled(warehouse, doc, Posting(w.rows + [row], w.balances[row.key := b]), items[m], m)
  {
    var w2 := Posting(w.rows + [row], w.balances[row.key := b]);
    forall m | 0 <= m < n + 1 ensures Settled(warehouse, doc, w2, items[m], m) {
      if m < n {
        assert Settled(warehouse, doc, w, items[m], m);
        if items[m].difference != 0 { LedgerRules.StillRecorded(w.rows, [row], CountSource(doc, m)); }
      } else {
        assert w2.rows[|w.rows|].source == CountSource(doc, n);
      }
    }
  }

  // What posting line n leaves.
  function NextPosting(w: Posting, warehouse: int, doc: nat, item: CountItem, n: nat): Posting {
    Posting(w.rows + [RowOf(warehouse, doc, item, n)], w.balances[Key(warehouse, item.material) := Adjusted(item)])
  }

  lemma {:induction false} NextLineStock(db: Db, locked: map<Key, Balance>, warehouse: int, doc: nat, item: CountItem,
          n: nat, w: Posting)
    requires ItemReady(db, locked, warehouse, item) && StockSoFar(db.ledger, locked, w)
    requires Key(warehouse, item.material) !in KeysOf(w.rows)
    requires item.difference != 0 && Current(db.ledger, warehouse, item) && Bearable(item)
    ensures StockSoFar(db.ledger, locked, NextPosting(w, warehouse, doc, item, n))
  {
    UntouchedBalance(locked, w.rows, Key(warehouse, item.material));
    MoveByMeans(item);
    AdjustRowSigned(warehouse, item, item.physical, CountSource(doc, n));
    NextStock(db.ledger, locked, w, item, RowOf(warehouse, doc, item, n));
  }

  lemma {:induction false} NextLineSettled(warehouse: int, doc: nat, items: seq<CountItem>, n: nat, w: Posting)
    requires n < |items| && DistinctMaterials(items) && items[n].bookQuantity + items[n].difference == items[n].physical
    requires forall m :: 0 <= m < n ==> Settled(warehouse, doc, w, items[m], m)
    ensures forall m :: 0 <= m < n + 1 ==>
      Settled(warehouse, doc, NextPosting(w, warehouse, doc, items[n], n), items[m], m)
  {
    NextSettled(warehouse, doc, items, w, n, RowOf(warehouse, doc, items[n], n), Adjusted(items[n]));
  }

  lemma {:induction false} NextLineSettles(db: Db, locked: map<Key, Balance>, warehouse: int, doc: nat,
          items: seq<CountItem>, n: nat, w: Posting)
    requires n < |items| && DistinctMaterials(items) && ItemReady(db, locked, warehouse, items[n])
    requires PostedSoFar(db, locked, warehouse, doc, items, n, w)
    requires items[n].difference != 0 && Current(db.ledger, warehouse, items[n]) && Bearable(items[n])
    ensures PostedSoFar(db, locked, warehouse, doc, items, n + 1, NextPosting(w, warehouse, doc, items[n], n))
  {
    KeyStillUnposted(db.ledger, warehouse, doc, items, n, w.rows);
    NextLineStock(db, locked, warehouse, doc, items[n], n, w);
    NextRowFits(db.ledger, warehouse, doc, items, n, n + 1, w.rows);
    MoveByMeans(items[n]);
    NextLineSettled(warehouse, doc, items, n, w);
  }

  lemma {:induction false} SkippedRows(ledger: seq<Txn>, warehouse: int, doc: nat, items: seq<CountItem>, n: nat,
          next: nat, rows: seq<Txn>)
    requires n <= next <= |items| && RowsSoFar(ledger, warehouse, doc, items, n, rows)
    ensures RowsSoFar(ledger, warehouse, doc, items, next, rows)
  {
    forall k | 0 <= k < |rows| ensures AdjustsAt(ledger, warehouse, doc, items, next, rows[k]) {
      assert AdjustsAt(ledger, warehouse, doc, items, n, rows[k]);
    }
  }

  // A count posts exactly when every differing line is still current and bearable; otherwise it is refused, as stale
  // or for its value.
  lemma {:induction false} PostItemsMeans(db: Db, locked: map<Key, Balance>, warehouse: int, doc: nat,
          items: seq<CountItem>, n: nat, w: Posting)
    requires CanPost(db, locked, warehouse, items) && n <= |items|
    requires PostedSoFar(db, locked, warehouse, doc, items, n, w)
    ensures var r := PostItems(db, warehouse, doc, w, n, items[n..]);
      && (r.Ok? <==> forall m :: n <= m < |items| ==> Postable(db.ledger, warehouse, items[m]))
      && (r.Ok? ==> PostedSoFar(db, locked, warehouse, doc, items, |items|, r.value))
      && (r.Err? ==> r.error == ReconciliationBalanceChanged || r.error == InventoryBalanceMismatch)
    decreases |items| - n
  {
    if n < |items| {
      var item := items[n];
      PostItemsNext(db, warehouse, doc, items, n, w);
      if item.difference == 0 {
        SkippedRows(db.ledger, warehouse, doc, items, n, n + 1, w.rows);
        PostItemsMeans(db, locked, warehouse, doc, items, n + 1, w);
      } else {
        KeyStillUnposted(db.ledger, warehouse, doc, items, n, w.rows);
        UntouchedBalance(locked, w.rows, Key(warehouse, item.material));
        PostItemMeans(db, locked, warehouse, doc, w, n, item);
        if Current(db.ledger, warehouse, item) && Bearable(item) {
          NextLineSettles(db, locked, warehouse, doc, items, n, w);
          PostItemsMeans(db, locked, warehouse, doc, items, n + 1, PostItem(db, warehouse, doc, w, n, item).value);
        } else {
          assert !Postable(db.ledger, warehouse, items[n]);
        }
      }
    }
  }

  // ---------------------------------------------------------------------------------------------
  // Approving
  // ---------------------------------------------------------------------------------------------

  lemma {:induction false} MovingKeysHas(warehouse: int, items: seq<CountItem>, n: nat)
    requires n < |items| && items[n].difference != 0
    ensures Key(warehouse, items[n].material) in MovingKeys(warehouse, items)
  {
    if n > 0 {
      assert items[1..][n - 1] == items[n];
      MovingKeysHas(warehouse, items[1..], n - 1);
    }
  }

  lemma {:induction false} LockingKeepsStock(ledger: seq<Txn>, balances: map<Key, Balance>, keys: seq<Key>)
    requires StockOk(ledger, balances)
    ensures StockSoFar(ledger, Upsert(balances, keys), Posting([], Upsert(balances, keys)))
  {
    var locked := Upsert(balances, keys);
    assert ledger + [] == ledger;
    forall k | k in locked ensures Agrees(ledger, k, locked[k]) { NeverMoved(ledger, balances, k); }
    PostIs(locked, [], locked);
  }

  lemma {:induction false} FrozenCanPost(db: Db, c: Count)
    requires StockOk(db.ledger, db.balances) && CountFits(db.ledger, c)
    ensures CanPost(db, Upsert(db.balances, MovingKeys(c.warehouse, c.items)), c.warehouse, c.items)
  {
    var locked := Upsert(db.balances, MovingKeys(c.warehouse, c.items));
    forall n | 0 <= n < |c.items| ensures ItemReady(db, locked, c.warehouse, c.items[n]) {
      assert ItemFits(db.ledger, c.warehouse, c.items[n]);
      if c.items[n].difference != 0 { MovingKeysHas(c.warehouse, c.items, n); }
      FrozenItemReady(db, locked, c.warehouse, c.items[n]);
    }
  }

  function PostingOf(db: Db, doc: nat): Result<Posting>
    requires doc < |db.counts|
  {
    var c := db.counts[doc];
    PostItems(db, c.warehouse, doc, Posting([], Upsert(db.balances, MovingKeys(c.warehouse, c.items))), 0, c.items)
  }

  lemma {:induction false} PostingMeans(db: Db, doc: nat)
    requires StockOk(db.ledger, db.balances) && doc < |db.counts| && CountFits(db.ledger, db.counts[doc])
    ensures var c := db.counts[doc];
      && (PostingOf(db, doc).Ok? <==> forall n :: 0 <= n < |c.items| ==> Postable(db.ledger, c.warehouse, c.items[n]))
      && (PostingOf(db, doc).Ok? ==>
            PostedSoFar(db, Upsert(db.balances, MovingKeys(c.warehouse, c.items)), c.warehouse, doc, c.items,
                                                 |c.items|, PostingOf(db, doc).value))
      && (PostingOf(db, doc).Err? ==>
            PostingOf(db, doc).error in {ReconciliationBalanceChanged, InventoryBalanceMismatch})
  {
    var c := db.counts[doc];
    var locked := Upsert(db.balances, MovingKeys(c.warehouse, c.items));
    FrozenCanPost(db, c);
    LockingKeepsStock(db.ledger, db.balances, MovingKeys(c.warehouse, c.items));
    assert c.items[0..] == c.items;
    PostItemsMeans(db, locked, c.warehouse, doc, c.items, 0, Posting([], locked));
  }

  // Frozen lines always pass the final per-line validation.
  lemma {:induction false} FrozenItemsPostable(ledger: seq<Txn>, warehouse: int, items: seq<CountItem>)
    requires forall n :: 0 <= n < |items| ==> ItemFits(ledger, warehouse, items[n])
    ensures ItemsPostable(items).Ok?
  {
    if items != [] {
      assert ItemFits(ledger, warehouse, items[0]);
      forall n | 0 <= n < |items[1..]| ensures ItemFits(ledger, warehouse, items[1..][n]) {
        assert items[1..][n] == items[n + 1];
      }
      FrozenItemsPostable(ledger, warehouse, items[1..]);
    }
  }

  function PostedDoc(c: Count, approver: int, selfApproved: bool): Count {
    c.(status := CountPosted, version := c.version + 1, approvedBy := Some(approver), selfApproved := selfApproved)
  }

  function WithPosting(db: Db, doc: nat, w: Posting, approver: int, selfApproved: bool): Db
    requires doc < |db.counts|
  {
    db.(counts := db.counts[doc := PostedDoc(db.counts[doc], approver, selfApproved)],
        ledger := db.ledger + w.rows, balances := w.balances, audit := db.audit + [Audit(CountApproved, doc)])
  }

  lemma {:induction false} ApprovedCountIs(db: Db, user: User, doc: nat, overrideFlag: bool, overrideReason: bool)
    requires doc < |db.counts| && CountFits(db.ledger, db.counts[doc]) && db.counts[doc].status == CountPending
    requires MayPost(db.counts[doc], user, overrideFlag, overrideReason).Ok?
    ensures ApprovedCount(db, user, doc, overrideFlag, overrideReason)
      == match PostingOf(db, doc)
         case Ok(w) => Ok(WithPosting(db, doc, w, user.id,
                                      MayPost(db.counts[doc], user, overrideFlag, overrideReason).value))
         case Err(e) => Err(e)
  {
    FrozenItemsPostable(db.ledger, db.counts[doc].warehouse, db.counts[doc].items);
  }

  lemma {:induction false} LastRowAfterOthers(ledger: seq<Txn>, more: seq<Txn>, key: Key)
    requires forall k :: 0 <= k < |more| ==> more[k].key != key
    ensures LastRow(ledger + more, key) == LastRow(ledger, key)
  {
    var all := ledger + more;
    var a, b := LastRow(all, key), LastRow(ledger, key);
    assert b > 0 ==> all[b - 1] == ledger[b - 1];
    forall i | b <= i < |all| ensures all[i].key != key {
      assert i >= |ledger| ==> all[i] == more[i - |ledger|];
    }
  }

  lemma {:induction false} NewRowsAtMark(db: Db, doc: nat, counts2: seq<Count>, rows: seq<Txn>, k: nat)
    requires doc < |counts2| && k < |rows| && DistinctMaterials(counts2[doc].items)
    requires RowsSoFar(db.ledger, counts2[doc].warehouse, doc, counts2[doc].items, |counts2[doc].items|, rows)
    ensures PostedAtMark(counts2, db.ledger + rows, |db.ledger| + k)
  {
    var items, warehouse := counts2[doc].items, counts2[doc].warehouse;
    assert AdjustsAt(db.ledger, warehouse, doc, items, |items|, rows[k]);
    forall l | 0 <= l < k ensures rows[l].key != rows[k].key {
      assert AdjustsAt(db.ledger, warehouse, doc, items, |items|, rows[l]) && rows[l].source != rows[k].source;
    }
    assert (db.ledger + rows)[..|db.ledger| + k] == db.ledger + rows[..k];
    LastRowAfterOthers(db.ledger, rows[..k], rows[k].key);
  }

  lemma {:induction false} PostingKeepsMarks(db: Db, doc: nat, counts2: seq<Count>, rows: seq<Txn>)
    requires forall i :: 0 <= i < |db.ledger| ==> PostedAtMark(db.counts, db.ledger, i)
    requires doc < |db.counts| == |counts2|
    requires (forall c :: 0 <= c < |counts2| ==> counts2[c].items == db.counts[c].items)
    requires DistinctMaterials(counts2[doc].items)
    requires RowsSoFar(db.ledger, counts2[doc].warehouse, doc, counts2[doc].items, |counts2[doc].items|, rows)
    ensures forall i :: 0 <= i < |db.ledger + rows| ==> PostedAtMark(counts2, db.ledger + rows, i)
  {
    forall i | 0 <= i < |db.ledger + rows| ensures PostedAtMark(counts2, db.ledger + rows, i) {
      if i < |db.ledger| {
        assert PostedAtMark(db.counts, db.ledger, i);
        assert (db.ledger + rows)[..i] == db.ledger[..i];
      } else {
        NewRowsAtMark(db, doc, counts2, rows, i - |db.ledger|);
      }
    }
  }

  lemma {:induction false} PostingKeepsCounts(db: Db, doc: nat, counts2: seq<Count>, rows: seq<Txn>)
    requires CountsFit(db.counts, db.ledger) && doc < |db.counts|
    requires |counts2| == |db.counts| && (forall c :: 0 <= c < |counts2| && c != doc ==> counts2[c] == db.counts[c])
    requires counts2[doc].items == db.counts[doc].items && counts2[doc].warehouse == db.counts[doc].warehouse
    requires ApprovalFits(counts2[doc])
    requires RowsSoFar(db.ledger, counts2[doc].warehouse, doc, counts2[doc].items, |counts2[doc].items|, rows)
    ensures CountsFit(counts2, db.ledger + rows)
  {
    forall c | 0 <= c < |counts2| ensures CountFits(db.ledger + rows, counts2[c]) {
      assert CountFits(db.ledger, db.counts[c]);
      CountStays(db.ledger, rows, db.counts[c]);
      if c == doc { SameItemsFit(db.ledger + rows, db.counts[doc], counts2[doc]); }
    }
    assert CountFits(db.ledger, db.counts[doc]);
    PostingKeepsMarks(db, doc, counts2, rows);
  }

  lemma {:induction false} SameItemsFit(ledger: seq<Txn>, c: Count, c2: Count)
    requires CountFits(ledger, c) && c2.items == c.items && c2.warehouse == c.warehouse && ApprovalFits(c2)
    ensures CountFits(ledger, c2)
  {
    forall n | 0 <= n < |c2.items| ensures ItemFits(ledger, c2.warehouse, c2.items[n]) {
      assert ItemFits(ledger, c.warehouse, c.items[n]);
    }
  }

  // ---------------------------------------------------------------------------------------------
  // The image of counts in the ledger
  // ---------------------------------------------------------------------------------------------

  lemma {:induction false} OtherCountRow(receipts: seq<Receipt>, rows: seq<ReceiptLine>, counts: seq<Count>,
          ledger: seq<Txn>, counts2: seq<Count>, i: nat)
    requires i < |ledger| && LedgerRules.RowFits(receipts, rows, counts, ledger, i)
    requires |counts2| >= |counts| && forall c :: 0 <= c < |counts| && counts[c].status == CountPosted ==>
      counts2[c] == counts[c]
    ensures LedgerRules.RowFits(receipts, rows, counts2, ledger, i)
  {
  }

  // Counts that are not posted may be created and edited freely.
  lemma {:induction false} EditKeepsImage(receipts: seq<Receipt>, rows: seq<ReceiptLine>, counts: seq<Count>,
          ledger: seq<Txn>, counts2: seq<Count>)
    requires LedgerRules.ImageFits(receipts, rows, counts, ledger)
    requires |counts2| >= |counts| && forall c :: 0 <= c < |counts| && counts[c].status == CountPosted ==>
      counts2[c] == counts[c]
    requires forall c :: 0 <= c < |counts2| && counts2[c].status == CountPosted ==>
      c < |counts| && counts[c] == counts2[c]
    ensures LedgerRules.ImageFits(receipts, rows, counts2, ledger)
  {
    forall i | 0 <= i < |ledger| ensures LedgerRules.RowFits(receipts, rows, counts2, ledger, i) {
      OtherCountRow(receipts, rows, counts, ledger, counts2, i);
    }
    forall c | 0 <= c < |counts2| ensures LedgerRules.CountRecorded(ledger, counts2[c], c) {
      if counts2[c].status == CountPosted { assert LedgerRules.CountRecorded(ledger, counts[c], c); }
    }
  }

  lemma {:induction false} EditKeepsCounts(receipts: seq<Receipt>, rows: seq<ReceiptLine>, counts: seq<Count>,
          ledger: seq<Txn>, counts2: seq<Count>)
    requires LedgerRules.ImageFits(receipts, rows, counts, ledger) && CountsFit(counts, ledger)
    requires |counts2| >= |counts| && forall c :: 0 <= c < |counts| && counts[c].status == CountPosted ==>
      counts2[c] == counts[c]
    requires forall c :: 0 <= c < |counts2| ==> CountFits(ledger, counts2[c])
    ensures CountsFit(counts2, ledger)
  {
    forall i | 0 <= i < |ledger| ensures PostedAtMark(counts2, ledger, i) {
      assert PostedAtMark(counts, ledger, i) && LedgerRules.RowFits(receipts, rows, counts, ledger, i);
    }
  }

  lemma {:induction false} NewRowFits(receipts: seq<Receipt>, rows: seq<ReceiptLine>, counts2: seq<Count>,
          ledger: seq<Txn>, doc: nat, more: seq<Txn>, k: nat)
    requires doc < |counts2| && counts2[doc].status == CountPosted && k < |more|
    requires AdjustsAt(ledger, counts2[doc].warehouse, doc, counts2[doc].items, |counts2[doc].items|, more[k])
    ensures LedgerRules.RowFits(receipts, rows, counts2, ledger + more, |ledger| + k)
    ensures more[k].source.CountSource? && more[k].source.count == doc
  {
  }

  lemma {:induction false} LinesStayRecorded(receipts: seq<Receipt>, ledger: seq<Txn>, rows: seq<ReceiptLine>,
          more: seq<Txn>)
    requires forall n :: 0 <= n < |rows| ==> LedgerRules.LineRecorded(receipts, ledger, rows, n)
    ensures forall n :: 0 <= n < |rows| ==> LedgerRules.LineRecorded(receipts, ledger + more, rows, n)
  {
    forall n | 0 <= n < |rows| ensures LedgerRules.LineRecorded(receipts, ledger + more, rows, n) {
      assert LedgerRules.LineRecorded(receipts, ledger, rows, n);
      LedgerRules.StillRecorded(ledger, more, ReceiptSource(rows[n].receipt, n));
      if LedgerRules.Recorded(ledger, ReversalSource(rows[n].receipt, n)) {
        LedgerRules.StillRecorded(ledger, more, ReversalSource(rows[n].receipt, n));
      }
    }
  }

  lemma {:induction false} PostingKeepsImage(db: Db, doc: nat, counts2: seq<Count>, w: Posting)
    requires LedgerRules.ImageFits(db.receipts, db.receiptLines, db.counts, db.ledger)
    requires doc < |db.counts| == |counts2| && db.counts[doc].status != CountPosted
    requires counts2[doc].status == CountPosted
    requires forall c :: 0 <= c < |counts2| && c != doc ==> counts2[c] == db.counts[c]
    requires RowsSoFar(db.ledger, counts2[doc].warehouse, doc, counts2[doc].items, |counts2[doc].items|, w.rows)
    requires forall n :: 0 <= n < |counts2[doc].items| ==>
      Settled(counts2[doc].warehouse, doc, w, counts2[doc].items[n], n)
    ensures LedgerRules.ImageFits(db.receipts, db.receiptLines, counts2, db.ledger + w.rows)
  {
    var rows := w.rows;
    forall i | 0 <= i < |db.ledger|
      ensures LedgerRules.RowFits(db.receipts, db.receiptLines, counts2, db.ledger, i)
      ensures db.ledger[i].source.CountSource? ==> db.ledger[i].source.count != doc
    {
      assert LedgerRules.RowFits(db.receipts, db.receiptLines, db.counts, db.ledger, i);
      OtherCountRow(db.receipts, db.receiptLines, db.counts, db.ledger, counts2, i);
    }
    forall i | |db.ledger| <= i < |db.ledger + rows|
      ensures LedgerRules.RowFits(db.receipts, db.receiptLines, counts2, db.ledger + rows, i)
      ensures rows[i - |db.ledger|].source.CountSource? && rows[i - |db.ledger|].source.count == doc
    {
      NewRowFits(db.receipts, db.receiptLines, counts2, db.ledger, doc, rows, i - |db.ledger|);
    }
    forall k | 0 <= k < |rows| ensures rows[k].source.CountSource? && rows[k].source.count == doc {
      NewRowFits(db.receipts, db.receiptLines, counts2, db.ledger, doc, rows, k);
    }
    LinesStayRecorded(db.receipts, db.ledger, db.receiptLines, rows);
    forall c | 0 <= c < |counts2| ensures LedgerRules.CountRecorded(db.ledger + rows, counts2[c], c) {
      CountStaysRecorded(db, doc, counts2, w, c);
    }
    LedgerRules.AppendFits(db.receipts, db.receiptLines, counts2, db.ledger, rows);
  }

  lemma {:induction false} CountStaysRecorded(db: Db, doc: nat, counts2: seq<Count>, w: Posting, c: nat)
    requires c < |counts2| == |db.counts|
    requires (c != doc ==> counts2[c] == db.counts[c] && LedgerRules.CountRecorded(db.ledger, db.counts[c], c))
    requires c == doc ==> forall n :: 0 <= n < |counts2[c].items| ==>
      Settled(counts2[c].warehouse, doc, w, counts2[c].items[n], n)
    ensures LedgerRules.CountRecorded(db.ledger + w.rows, counts2[c], c)
  {
    forall n | counts2[c].status == CountPosted && 0 <= n < |counts2[c].items| && counts2[c].items[n].difference != 0
      ensures LedgerRules.Recorded(db.ledger + w.rows, CountSource(c, n))
    {
      if c == doc { assert Settled(counts2[c].warehouse, doc, w, counts2[c].items[n], n); }
      LedgerRules.StillRecorded(db.ledger, w.rows, CountSource(c, n));
    }
  }
}
