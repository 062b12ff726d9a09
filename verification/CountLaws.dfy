/** Stock counts in every reachable state: when a count posts, what it leaves, and what it makes stale. */
module CountLaws {
  import opened Money
  import opened Tables
  import opened Inventory
  import opened Counts
  import opened CountRules
  import opened Validity
  import LedgerRules

  // The event guard implies the state guard: while no row was added on a line's key since its snapshot, the book still
  // is what was frozen, in quantity, value and average.
  lemma {:induction false} EventGuardImpliesStateGuard(db: Db, c: nat, n: nat)
    requires Valid(db) && c < |db.counts| && n < |db.counts[c].items|
    requires Current(db.ledger, db.counts[c].warehouse, db.counts[c].items[n])
    ensures BalanceOf(db.balances, Key(db.counts[c].warehouse, db.counts[c].items[n].material))
         == Book(db.counts[c].items[n])
  {
    var doc := db.counts[c];
    var item := doc.items[n];
    assert CountFits(db.ledger, doc) && ItemFits(db.ledger, doc.warehouse, item);
    UnmovedKeepsBook(db.ledger, db.balances, Key(doc.warehouse, item.material), item.watermark, Book(item));
  }

  // approve_reconciliation succeeds exactly on a submitted count, by someone who may post it, when every differing line
  // is still current and takes no more value than there is.
  lemma {:induction false} ApproveSucceedsIff(db: Db, user: User, doc: nat, overrideFlag: bool, overrideReason: bool)
    requires Valid(db)
    ensures ApprovedCount(db, user, doc, overrideFlag, overrideReason).Ok? <==>
      && doc < |db.counts| && db.counts[doc].status == CountPending
      && MayPost(db.counts[doc], user, overrideFlag, overrideReason).Ok?
      && (forall n :: 0 <= n < |db.counts[doc].items| ==>
            Postable(db.ledger, db.counts[doc].warehouse, db.counts[doc].items[n]))
  {
    if doc < |db.counts| && db.counts[doc].status == CountPending
       && MayPost(db.counts[doc], user, overrideFlag, overrideReason).Ok? {
      assert CountFits(db.ledger, db.counts[doc]);
      ApprovedCountIs(db, user, doc, overrideFlag, overrideReason);
      PostingMeans(db, doc);
    }
  }

  // The ledger row of a posted line sits right behind its watermark, as far as its key is concerned.
  lemma {:induction false} PostedRow(db: Db, c: nat, n: nat) returns (i: nat)
    requires Valid(db) && c < |db.counts| && db.counts[c].status == CountPosted
    requires n < |db.counts[c].items| && db.counts[c].items[n].difference != 0
    ensures i < |db.ledger| && db.ledger[i].source == CountSource(c, n)
    ensures db.ledger[i].key == Key(db.counts[c].warehouse, db.counts[c].items[n].material)
    ensures LastRow(db.ledger[..i], db.ledger[i].key) == db.counts[c].items[n].watermark
  {
    assert LedgerRules.CountRecorded(db.ledger, db.counts[c], c);
    assert LedgerRules.Recorded(db.ledger, CountSource(c, n));
    i :| 0 <= i < |db.ledger| && db.ledger[i].source == CountSource(c, n);
    assert LedgerRules.RowFits(db.receipts, db.receiptLines, db.counts, db.ledger, i);
    assert PostedAtMark(db.counts, db.ledger, i);
  }

  // A later row of the same key sees a later watermark.
  lemma {:induction false} MarkMovesOn(ledger: seq<Txn>, i: nat, j: nat)
    requires i < j < |ledger| && ledger[i].key == ledger[j].key
    ensures LastRow(ledger[..j], ledger[j].key) > LastRow(ledger[..i], ledger[i].key)
  {
    assert ledger[..j][i] == ledger[i];
  }

  // Two counts taken from the same watermark never both adjust the same key.
  lemma {:induction false} NoDoubleAdjustment(db: Db, c: nat, n: nat, d: nat, m: nat)
    requires Valid(db)
    requires c < |db.counts| && db.counts[c].status == CountPosted && n < |db.counts[c].items|
    requires db.counts[c].items[n].difference != 0
    requires d < |db.counts| && db.counts[d].status == CountPosted && m < |db.counts[d].items|
    requires db.counts[d].items[m].difference != 0
    requires db.counts[c].warehouse == db.counts[d].warehouse
    requires db.counts[c].items[n].material == db.counts[d].items[m].material
    requires db.counts[c].items[n].watermark == db.counts[d].items[m].watermark
    ensures c == d && n == m
  {
    var i := PostedRow(db, c, n);
    var j := PostedRow(db, d, m);
    if i < j {
      MarkMovesOn(db.ledger, i, j);
    } else if j < i {
      MarkMovesOn(db.ledger, j, i);
    }
  }

  // The posting behind a successful approval.
  lemma {:induction false} ApprovalPosts(db: Db, user: User, doc: nat, overrideFlag: bool, overrideReason: bool,
          after: Db) returns (w: Posting)
    requires Valid(db) && ApprovedCount(db, user, doc, overrideFlag, overrideReason) == Ok(after)
    ensures doc < |db.counts| && PostingOf(db, doc) == Ok(w)
    ensures after.ledger == db.ledger + w.rows && after.balances == w.balances
    ensures |after.counts| == |db.counts| && forall c :: 0 <= c < |db.counts| && c != doc ==>
      after.counts[c] == db.counts[c]
    ensures CountFits(db.ledger, db.counts[doc])
  {
    assert CountFits(db.ledger, db.counts[doc]);
    ApprovedCountIs(db, user, doc, overrideFlag, overrideReason);
    w := PostingOf(db, doc).value;
  }

  // A successful approval makes the book of every differing line what was counted, and its value the frozen value plus
  // the adjustment.
  lemma {:induction false} ApprovalSettles(db: Db, user: User, doc: nat, overrideFlag: bool, overrideReason: bool,
          after: Db, n: nat)
    requires Valid(db) && ApprovedCount(db, user, doc, overrideFlag, overrideReason) == Ok(after)
    requires doc < |db.counts| && n < |db.counts[doc].items| && db.counts[doc].items[n].difference != 0
    ensures var item := db.counts[doc].items[n];
            var b := BalanceOf(after.balances, Key(db.counts[doc].warehouse, item.material));
            b.quantity == item.physical && b.total == item.bookTotal + item.amount
  {
    var w := ApprovalPosts(db, user, doc, overrideFlag, overrideReason, after);
    PostingMeans(db, doc);
    assert Settled(db.counts[doc].warehouse, doc, w, db.counts[doc].items[n], n);
  }

  // A successful posting adds a row on the key of every differing line.
  lemma {:induction false} PostingAddsRow(db: Db, doc: nat, w: Posting, n: nat) returns (k: nat)
    requires StockOk(db.ledger, db.balances) && doc < |db.counts| && CountFits(db.ledger, db.counts[doc])
    requires PostingOf(db, doc) == Ok(w)
    requires n < |db.counts[doc].items| && db.counts[doc].items[n].difference != 0
    ensures k < |w.rows| && w.rows[k].key == Key(db.counts[doc].warehouse, db.counts[doc].items[n].material)
  {
    var c := db.counts[doc];
    PostingMeans(db, doc);
    assert Settled(c.warehouse, doc, w, c.items[n], n);
    k :| 0 <= k < |w.rows| && w.rows[k].source == CountSource(doc, n);
    assert AdjustsAt(db.ledger, c.warehouse, doc, c.items, |c.items|, w.rows[k]);
  }

  // A count with a differing line whose key has moved cannot be approved by anyone.
  lemma {:induction false} StaleIsRefused(db: Db, c: nat, n: nat)
    requires Valid(db) && c < |db.counts| && n < |db.counts[c].items| && db.counts[c].items[n].difference != 0
    requires !Current(db.ledger, db.counts[c].warehouse, db.counts[c].items[n])
    ensures forall u, f, r :: ApprovedCount(db, u, c, f, r).Err?
  {
    assert !Postable(db.ledger, db.counts[c].warehouse, db.counts[c].items[n]);
    forall u, f, r ensures ApprovedCount(db, u, c, f, r).Err? { ApproveSucceedsIff(db, u, c, f, r); }
  }

  // An approval moves the key of every differing line past everything frozen before it.
  lemma {:induction false} ApprovalMovesKey(db: Db, user: User, doc: nat, overrideFlag: bool, overrideReason: bool,
          after: Db, n: nat)
    requires Valid(db) && ApprovedCount(db, user, doc, overrideFlag, overrideReason) == Ok(after)
    requires doc < |db.counts| && n < |db.counts[doc].items| && db.counts[doc].items[n].difference != 0
    ensures LastRow(after.ledger, Key(db.counts[doc].warehouse, db.counts[doc].items[n].material)) > |db.ledger|
    ensures |after.counts| == |db.counts| && forall c :: 0 <= c < |db.counts| && c != doc ==>
      after.counts[c] == db.counts[c]
  {
    var w := ApprovalPosts(db, user, doc, overrideFlag, overrideReason, after);
    var k := PostingAddsRow(db, doc, w, n);
    assert after.ledger[|db.ledger| + k] == w.rows[k];
  }

  lemma {:induction false} OpenCountIsOlder(db: Db, c: nat, n: nat)
    requires Valid(db) && c < |db.counts| && n < |db.counts[c].items|
    ensures db.counts[c].items[n].watermark <= |db.ledger|
  {
    assert CountFits(db.ledger, db.counts[c]) && ItemFits(db.ledger, db.counts[c].warehouse, db.counts[c].items[n]);
  }

  // So posting on a key makes every other open count of that key stale: its approval is refused.
  lemma {:induction false} PostingMakesStale(db: Db, user: User, doc: nat, overrideFlag: bool, overrideReason: bool,
          after: Db, n: nat, other: nat, m: nat)
    requires Valid(db) && Valid(after) && ApprovedCount(db, user, doc, overrideFlag, overrideReason) == Ok(after)
    requires doc < |db.counts| && n < |db.counts[doc].items| && db.counts[doc].items[n].difference != 0
    requires other < |db.counts| && other != doc && m < |db.counts[other].items|
    requires db.counts[other].items[m].difference != 0
    requires db.counts[other].warehouse == db.counts[doc].warehouse
    requires db.counts[other].items[m].material == db.counts[doc].items[n].material
    ensures forall u, f, r :: ApprovedCount(after, u, other, f, r).Err?
  {
    ApprovalMovesKey(db, user, doc, overrideFlag, overrideReason, after, n);
    OpenCountIsOlder(db, other, m);
    StaleIsRefused(after, other, m);
  }

  // ---------------------------------------------------------------------------------------------
  // Writing a whole stock off
  // ---------------------------------------------------------------------------------------------

  // A line that counts nothing where the book has stock.
  predicate WritesOff(item: CountItem) {
    item.physical == 0 && item.bookQuantity > 0
  }

  // Its value afterwards is what rounding the average leaves: nothing below 100 units, otherwise at most
  // quantity * 0.00005 + 0.005, and refused exactly when the rounded average overshoots by half a cent or more.
  lemma {:induction false} WriteOffLeaves(db: Db, c: nat, n: nat)
    requires Valid(db) && c < |db.counts| && n < |db.counts[c].items| && WritesOff(db.counts[c].items[n])
    ensures var item := db.counts[c].items[n];
            var left := item.bookTotal + item.amount;
      && item.difference != 0
      && left == WriteOffResidue(item.bookTotal, item.bookQuantity)
      && (Bearable(item) <==> 2 * AverageOvershoot(item.bookTotal, item.bookQuantity) < UNITS_PER_CENT)
      && (Bearable(item) ==> 0 <= 2 * UNITS_PER_CENT * left <= item.bookQuantity + UNITS_PER_CENT)
      && (left == 0 <==> -UNITS_PER_CENT <= 2 * AverageOvershoot(item.bookTotal, item.bookQuantity) < UNITS_PER_CENT)
      && (item.bookQuantity < UNITS_PER_CENT ==> Bearable(item) && left == 0)
  {
    var item := db.counts[c].items[n];
    assert CountFits(db.ledger, db.counts[c]) && ItemFits(db.ledger, db.counts[c].warehouse, item);
    WriteOffBound(item.bookTotal, item.bookQuantity);
    WriteOffOutcome(item.bookTotal, item.bookQuantity);
  }

  // ---------------------------------------------------------------------------------------------
  // Editing never refreshes a snapshot silently
  // ---------------------------------------------------------------------------------------------

  // A line of an edited count keeps the snapshot of the line it continues; only a new material takes a fresh one.
  predicate ContinuesFrom(db: Db, warehouse: int, existing: seq<CountItem>, item: CountItem) {
    match ItemFor(existing, item.material)
    case Some(kept) => Book(item) == Book(kept) && item.watermark == kept.watermark
    case None =>
      var snap := TakeSnapshot(db, Key(warehouse, item.material));
      Book(item) == snap.book && item.watermark == snap.watermark
  }

  lemma {:induction false} RebuildContinues(db: Db, m: Master, warehouse: int, existing: seq<CountItem>,
          lines: seq<CountRequest>, sofar: seq<CountItem>)
    requires Rebuild(db, m, warehouse, existing, lines, sofar).Ok?
    requires forall i :: 0 <= i < |sofar| ==> ContinuesFrom(db, warehouse, existing, sofar[i])
    ensures var r := Rebuild(db, m, warehouse, existing, lines, sofar).value;
      && |r| == |sofar| + |lines|
      && (forall i :: 0 <= i < |r| ==> ContinuesFrom(db, warehouse, existing, r[i]))
      && (forall i :: 0 <= i < |sofar| ==> r[i] == sofar[i])
      && (forall i :: 0 <= i < |lines| ==>
            r[|sofar| + i].material == lines[i].material && r[|sofar| + i].physical == lines[i].physical)
    decreases |lines|
  {
    if lines != [] {
      var line, kept := lines[0], ItemFor(existing, lines[0].material);
      var item := if kept.Some? then KeptItem(kept.value, line).value
                  else NewItem(TakeSnapshot(db, Key(warehouse, line.material)), line).value;
      assert ContinuesFrom(db, warehouse, existing, item);
      RebuildContinues(db, m, warehouse, existing, lines[1..], sofar + [item]);
      var r := Rebuild(db, m, warehouse, existing, lines, sofar).value;
      assert r[|sofar|] == (sofar + [item])[|sofar|];
      forall i | 0 < i < |lines|
        ensures r[|sofar| + i].material == lines[i].material && r[|sofar| + i].physical == lines[i].physical
      {
        assert lines[1..][i - 1] == lines[i] && r[|sofar + [item]| + (i - 1)] == r[|sofar| + i];
      }
      forall i | 0 <= i < |sofar| ensures r[i] == sofar[i] { assert r[i] == (sofar + [item])[i]; }
    }
  }

  lemma {:induction false} UpdatedCountIs(db: Db, m: Master, doc: nat, version: nat, lines: seq<CountRequest>,
          after: Db)
    requires UpdatedCount(db, m, doc, version, lines) == Ok(after)
    ensures doc < |db.counts| && |after.counts| == |db.counts|
    ensures Rebuild(db, m, db.counts[doc].warehouse, db.counts[doc].items, lines, []) == Ok(after.counts[doc].items)
  {
  }

  lemma {:induction false} EditKeepsSnapshots(db: Db, m: Master, doc: nat, version: nat, lines: seq<CountRequest>,
          after: Db)
    requires UpdatedCount(db, m, doc, version, lines) == Ok(after)
    ensures doc < |db.counts| && |after.counts| == |db.counts| && |after.counts[doc].items| == |lines|
    ensures forall i :: 0 <= i < |lines| ==>
      && after.counts[doc].items[i].material == lines[i].material
      && after.counts[doc].items[i].physical == lines[i].physical
      && ContinuesFrom(db, db.counts[doc].warehouse, db.counts[doc].items, after.counts[doc].items[i])
  {
    UpdatedCountIs(db, m, doc, version, lines, after);
    RebuildContinues(db, m, db.counts[doc].warehouse, db.counts[doc].items, lines, []);
    var none: seq<CountItem>, items := [], after.counts[doc].items;
    forall i | 0 <= i < |lines|
      ensures items[i].material == lines[i].material && items[i].physical == lines[i].physical
    {
      assert items[|none| + i] == items[i];
    }
  }

  // ---------------------------------------------------------------------------------------------
  // A count that is created, submitted and approved without anything moving in between
  // ---------------------------------------------------------------------------------------------

  ghost function FreshCount(db: Db, counter: User, approver: User, m: Master, warehouse: int, lines: seq<CountRequest>,
          overrideFlag: bool, overrideReason: bool): Result<Db>
  {
    var created :- CreatedCount(db, counter, m, warehouse, lines);
    var submitted :- SubmittedCount(created, |db.counts|, 1);
    ApprovedCount(submitted, approver, |db.counts|, overrideFlag, overrideReason)
  }

  // A surplus needs a positive rate; a loss at the average cost must not take more value than there is.
  predicate CountableOn(b: Balance, line: CountRequest) {
    if line.physical > b.quantity then line.rate.Some? && line.rate.value > 0
    else LineAmount(b.quantity - line.physical, b.average) <= b.total
  }

  predicate Countable(db: Db, warehouse: int, line: CountRequest) {
    CountableOn(BalanceOf(db.balances, Key(warehouse, line.material)), line)
  }

  predicate HasRate(db: Db, warehouse: int, line: CountRequest) {
    line.physical > BalanceOf(db.balances, Key(warehouse, line.material)).quantity ==>
      line.rate.Some? && line.rate.value > 0
  }

  function ItemOf(db: Db, warehouse: int, line: CountRequest): Result<CountItem> {
    NewItem(TakeSnapshot(db, Key(warehouse, line.material)), line)
  }

  predicate ItemsAre(db: Db, warehouse: int, lines: seq<CountRequest>, sofar: seq<CountItem>, items: seq<CountItem>) {
    && |items| == |sofar| + |lines| && items[..|sofar|] == sofar
    && forall i :: 0 <= i < |lines| ==> ItemOf(db, warehouse, lines[i]) == Ok(items[|sofar| + i])
  }

  lemma {:induction false} NewItemsAre(db: Db, warehouse: int, lines: seq<CountRequest>, sofar: seq<CountItem>)
    ensures NewItems(db, warehouse, lines, sofar).Ok? <==> forall i :: 0 <= i < |lines| ==>
      HasRate(db, warehouse, lines[i])
    ensures NewItems(db, warehouse, lines, sofar).Ok? ==>
      ItemsAre(db, warehouse, lines, sofar, NewItems(db, warehouse, lines, sofar).value)
    decreases |lines|
  {
    if lines != [] {
      assert forall i :: 0 <= i < |lines[1..]| ==> lines[1..][i] == lines[i + 1];
      if HasRate(db, warehouse, lines[0]) {
        var item := ItemOf(db, warehouse, lines[0]).value;
        NewItemsAre(db, warehouse, lines[1..], sofar + [item]);
        var r := NewItems(db, warehouse, lines, sofar);
        if r.Ok? {
          assert r.value[..|sofar|] == r.value[..|sofar| + 1][..|sofar|];
          forall i | 0 <= i < |lines| ensures ItemOf(db, warehouse, lines[i]) == Ok(r.value[|sofar| + i]) {
            if i > 0 {
              assert lines[1..][i - 1] == lines[i];
            } else {
              assert r.value[|sofar|] == r.value[..|sofar| + 1][|sofar|];
            }
          }
        }
      }
    }
  }

  lemma {:induction false} CountableMeansBearable(b: Balance, line: CountRequest)
    requires b.total >= 0 && b.average >= 0
    requires line.physical > b.quantity ==> line.rate.Some? && line.rate.value > 0
    ensures AmountFor(line, b.quantity, b.average).Ok?
    ensures var d := AmountFor(line, b.quantity, b.average).value;
      && d.difference == line.physical - b.quantity
      && (CountableOn(b, line) <==> d.difference == 0 || b.total + d.amount >= 0)
  {
    HalfUpUnique(0, UNITS_PER_CENT, 0);
    assert line.physical == b.quantity ==> (b.quantity - line.physical) * b.average == 0;
  }

  // A line as it was frozen in these tables is current in them, and can be posted exactly when it can be valued.
  lemma {:induction false} CountableMeansPostable(db: Db, warehouse: int, line: CountRequest, item: CountItem)
    requires StockOk(db.ledger, db.balances) && ItemOf(db, warehouse, line) == Ok(item)
    ensures item.material == line.material && item.physical == line.physical
    ensures Book(item) == BalanceOf(db.balances, Key(warehouse, line.material))
    ensures item.difference == item.physical - item.bookQuantity
    ensures Postable(db.ledger, warehouse, item) <==> Countable(db, warehouse, line)
  {
    NeverMoved(db.ledger, db.balances, Key(warehouse, line.material));
    CountableMeansBearable(BalanceOf(db.balances, Key(warehouse, line.material)), line);
  }

  predicate AllCountable(db: Db, warehouse: int, lines: seq<CountRequest>) {
    forall i :: 0 <= i < |lines| ==> Countable(db, warehouse, lines[i])
  }

  predicate AllPostable(ledger: seq<Txn>, warehouse: int, items: seq<CountItem>) {
    forall i :: 0 <= i < |items| ==> Postable(ledger, warehouse, items[i])
  }

  lemma {:induction false} AllCountableMeansAllPostable(db: Db, warehouse: int, lines: seq<CountRequest>,
                                                        items: seq<CountItem>)
    requires StockOk(db.ledger, db.balances) && ItemsAre(db, warehouse, lines, [], items)
    ensures AllPostable(db.ledger, warehouse, items) <==> AllCountable(db, warehouse, lines)
  {
    var none: seq<CountItem> := [];
    forall i | 0 <= i < |lines|
      ensures Postable(db.ledger, warehouse, items[i]) <==> Countable(db, warehouse, lines[i])
    {
      assert items[|none| + i] == items[i];
      CountableMeansPostable(db, warehouse, lines[i], items[i]);
    }
  }

  // The submitted count, with everything as frozen a moment ago.
  lemma {:induction false} FreshCountStands(db: Db, counter: User, m: Master, warehouse: int, lines: seq<CountRequest>,
          created: Db) returns (submitted: Db)
    requires Valid(db) && CreatedCount(db, counter, m, warehouse, lines) == Ok(created)
    ensures SubmittedCount(created, |db.counts|, 1) == Ok(submitted) && Valid(submitted)
    ensures |submitted.counts| == |db.counts| + 1 && submitted.ledger == db.ledger && submitted.balances == db.balances
    ensures var c := submitted.counts[|db.counts|];
      && c.status == CountPending && c.warehouse == warehouse && c.countedBy == counter.id
      && ItemsAre(db, warehouse, lines, [], c.items)
  {
    hide RequisitionRules.RequisitionsOk, OrderRules.OrdersOk, ReceiptRules.ReceiptsFit, LedgerRules.ImageFits;
    NewItemsAre(db, warehouse, lines, []);
    CreatedCountSteps(db, counter, m, warehouse, lines, created);
    var doc, c, action :| IsCountEdit(db, created, doc, c, action);
    CountEditKeepsValid(db, created, doc, c, action);
    assert CountFits(created.ledger, created.counts[|db.counts|]);
    submitted := SubmittedCount(created, |db.counts|, 1).value;
    SubmittedCountSteps(created, |db.counts|, 1, submitted);
    var doc2, c2, action2 :| IsCountEdit(created, submitted, doc2, c2, action2);
    CountEditKeepsValid(created, submitted, doc2, c2, action2);
  }

  predicate FourEyes(counter: User, approver: User, overrideFlag: bool, overrideReason: bool) {
    approver.id != counter.id || (approver.mayOverrideSelfApproval && overrideFlag && overrideReason)
  }

  // With nothing moving in between, a count that is created, submitted and approved gets posted exactly when its
  // payload is accepted, four eyes saw it (or may waive that), and every line can be valued.
  lemma {:induction false} FreshCountPostsIff(db: Db, counter: User, approver: User, m: Master, warehouse: int,
          lines: seq<CountRequest>, overrideFlag: bool, overrideReason: bool)
    requires Valid(db)
    ensures FreshCount(db, counter, approver, m, warehouse, lines, overrideFlag, overrideReason).Ok? <==>
      && IsActive(m.warehouses, warehouse) && lines != []
      && Counts.RequestsOk(m, lines, {}).Ok?
      && FourEyes(counter, approver, overrideFlag, overrideReason)
      && AllCountable(db, warehouse, lines)
  {
    hide RequisitionRules.RequisitionsOk, OrderRules.OrdersOk, ReceiptRules.ReceiptsFit, LedgerRules.ImageFits, StockOk,
         CountsFit;
    NewItemsAre(db, warehouse, lines, []);
    var created := CreatedCount(db, counter, m, warehouse, lines);
    if created.Ok? {
      var submitted := FreshCountStands(db, counter, m, warehouse, lines, created.value);
      AllCountableMeansAllPostable(db, warehouse, lines, submitted.counts[|db.counts|].items);
      ApproveSucceedsIff(submitted, approver, |db.counts|, overrideFlag, overrideReason);
      assert AllCountable(db, warehouse, lines) <==>
        forall n :: 0 <= n < |submitted.counts[|db.counts|].items| ==>
          Postable(submitted.ledger, warehouse, submitted.counts[|db.counts|].items[n]);
    } else {
      assert forall i :: 0 <= i < |lines| && Countable(db, warehouse, lines[i]) ==> HasRate(db, warehouse, lines[i]);
    }
  }

  lemma {:induction false} QuietKeyUnposted(ledger: seq<Txn>, warehouse: int, doc: nat, items: seq<CountItem>, n: nat,
          rows: seq<Txn>)
    requires n < |items| && items[n].difference == 0
    requires DistinctMaterials(items) && RowsSoFar(ledger, warehouse, doc, items, |items|, rows)
    ensures Key(warehouse, items[n].material) !in KeysOf(rows)
  {
    forall t | t in rows ensures t.key != Key(warehouse, items[n].material) {
      var k :| 0 <= k < |rows| && rows[k] == t;
      assert AdjustsAt(ledger, warehouse, doc, items, |items|, rows[k]);
    }
  }

  // Posting leaves the balance of a line without difference alone.
  lemma {:induction false} QuietLineStays(db: Db, doc: nat, w: Posting, n: nat)
    requires StockOk(db.ledger, db.balances) && doc < |db.counts| && CountFits(db.ledger, db.counts[doc])
    requires PostingOf(db, doc) == Ok(w)
    requires n < |db.counts[doc].items| && db.counts[doc].items[n].difference == 0
    ensures var key := Key(db.counts[doc].warehouse, db.counts[doc].items[n].material);
            BalanceOf(w.balances, key) == BalanceOf(db.balances, key)
  {
    var c := db.counts[doc];
    var key := Key(c.warehouse, c.items[n].material);
    PostingMeans(db, doc);
    QuietKeyUnposted(db.ledger, c.warehouse, doc, c.items, n, w.rows);
    UntouchedBalance(Upsert(db.balances, MovingKeys(c.warehouse, c.items)), w.rows, key);
  }

  // And then the book of every line, differing or not, is exactly what was counted.
  lemma {:induction false} FreshCountIsExact(db: Db, counter: User, approver: User, m: Master, warehouse: int,
          lines: seq<CountRequest>, overrideFlag: bool, overrideReason: bool, after: Db, i: nat)
    requires Valid(db) && i < |lines|
    requires FreshCount(db, counter, approver, m, warehouse, lines, overrideFlag, overrideReason) == Ok(after)
    ensures BalanceOf(after.balances, Key(warehouse, lines[i].material)).quantity == lines[i].physical
  {
    hide RequisitionRules.RequisitionsOk, OrderRules.OrdersOk, ReceiptRules.ReceiptsFit, LedgerRules.ImageFits, StockOk,
         CreatedCount;
    var created := CreatedCount(db, counter, m, warehouse, lines).value;
    var submitted := FreshCountStands(db, counter, m, warehouse, lines, created);
    var items, none: seq<CountItem> := submitted.counts[|db.counts|].items, [];
    assert items[|none| + i] == items[i];
    CountableMeansPostable(db, warehouse, lines[i], items[i]);
    if items[i].difference != 0 {
      ApprovalSettles(submitted, approver, |db.counts|, overrideFlag, overrideReason, after, i);
    } else {
      var w := ApprovalPosts(submitted, approver, |db.counts|, overrideFlag, overrideReason, after);
      QuietLineStays(submitted, |db.counts|, w, i);
    }
  }
}
