/** The services as locked transactions: what each does to stock alone is what the protocol interleaves. */
module LockedServices {
  import opened Sums
  import opened Tables
  import opened Inventory
  import opened LockProtocol
  import opened LockedPostings
  import opened Validity
  import LedgerRules
  import Receipts
  import ReceiptRules

  // ---------------------------------------------------------------------------------------------
  // The tables, key by key
  // ---------------------------------------------------------------------------------------------

  function SlotOf(ledger: seq<Txn>, balances: map<Key, Balance>, key: Key): Slot {
    Slot(BalanceOf(balances, key), RowsOn(ledger, key))
  }

  function StoreOf(db: Db): Store {
    (k: Key) => SlotOf(db.ledger, db.balances, k)
  }

  lemma {:induction false} RowsOnConcat(a: seq<Txn>, b: seq<Txn>, key: Key)
    ensures RowsOn(a + b, key) == RowsOn(a, key) + RowsOn(b, key)
  {
    if b == [] {
      assert a + b == a;
    } else {
      RowsOnConcat(a, b[..|b| - 1], key);
      assert (a + b)[..|a + b| - 1] == a + b[..|b| - 1];
    }
  }

  // Each key's own rows replay, so stock that is in order is in order key by key.
  lemma {:induction false} OwnRowsReplayAt(ledger: seq<Txn>, key: Key)
    requires Replays(ledger)
    ensures Replays(RowsOn(ledger, key))
  {
    if ledger != [] {
      var n := |ledger| - 1;
      var init, row := ledger[..n], ledger[n];
      forall i | 0 <= i < n ensures RowReplays(init, i) {
        assert RowReplays(ledger, i);
        assert init[..i + 1] == ledger[..i + 1];
      }
      OwnRowsReplayAt(init, key);
      if row.key == key {
        assert RowReplays(ledger, n) && ledger[..n + 1] == ledger;
        SumSnoc(init, row, QuantityOn(key));
        assert ledger == init + [row];
        LastOwnRowReplays(init, row);
      }
    }
  }

  lemma {:induction false} LastOwnRowReplays(init: seq<Txn>, row: Txn)
    requires Replays(RowsOn(init, row.key)) && Signed(row)
    requires row.after == Sum(init, QuantityOn(row.key)) + row.quantity >= 0
    ensures Replays(RowsOn(init, row.key) + [row])
  {
    var own := RowsOn(init, row.key);
    RowsOnSum(init, row.key);
    SumSnoc(own, row, QuantityOn(row.key));
    forall i | 0 <= i < |own + [row]| ensures RowReplays(own + [row], i) {
      if i < |own| {
        assert RowReplays(own, i);
        assert (own + [row])[..i + 1] == own[..i + 1];
      } else {
        assert (own + [row])[..i + 1] == own + [row];
      }
    }
  }

  lemma {:induction false} StockIsSlots(ledger: seq<Txn>, balances: map<Key, Balance>, key: Key)
    requires StockOk(ledger, balances)
    ensures SlotOk(key, SlotOf(ledger, balances, key))
  {
    NeverMoved(ledger, balances, key);
    RowsOnSum(ledger, key);
    OwnRowsReplayAt(ledger, key);
  }

  // In every reachable state the tables are a store the protocol may start from.
  lemma {:induction false} TablesAreSlots(db: Db, key: Key)
    requires Valid(db)
    ensures SlotOk(key, StoreOf(db)(key))
  {
    StockIsSlots(db.ledger, db.balances, key);
  }

  // Posting rows on the tables is posting them key by key.
  lemma {:induction false} PostingIsSlotwise(ledger: seq<Txn>, balances: map<Key, Balance>, rows: seq<Txn>, key: Key)
    ensures WithPosting(SlotOf(ledger, balances, key), rows, key) == SlotOf(ledger + rows, Post(balances, rows), key)
  {
    RowsOnConcat(ledger, rows, key);
  }

  // The sequential run of one transaction.
  function Alone(store: Store, w: Work, key: Key): Slot {
    match w.plan(View(store, w.keys))
    case Some(rows) => WithPosting(store(key), rows, key)
    case None => store(key)
  }

  lemma {:induction false} OneSerial(store: Store, w: Work, key: Key)
    ensures Serial(store, [w])(key) == Alone(store, w, key)
  {
    assert [w][..0] == [];
    assert Serial(store, [w][..0]) == store;
  }

  // ---------------------------------------------------------------------------------------------
  // Receipts and reversals
  // ---------------------------------------------------------------------------------------------

  function MoveOf(t: Txn): Move {
    Move(t.kind, t.key, t.quantity, t.unitCost, t.amount, t.source, t.reversed)
  }

  function MovesOf(rows: seq<Txn>): (r: seq<Move>)
    ensures |r| == |rows| && forall i :: 0 <= i < |r| ==> r[i] == MoveOf(rows[i])
  {
    seq(|rows|, i requires 0 <= i < |rows| => MoveOf(rows[i]))
  }

  predicate PlannedAt(view: map<Key, Slot>, rows: seq<Txn>, i: nat)
    requires i < |rows|
  {
    rows[i].after == QuantityIn(view, rows[i].key) + Sum(rows[..i + 1], QuantityOn(rows[i].key))
  }

  lemma {:induction false} RowsForNext(view: map<Key, Slot>, rows: seq<Txn>, row: Txn)
    requires RowsFor(view, MovesOf(rows)) == rows
    requires row.after == QuantityIn(view, row.key) + Sum(rows, QuantityOn(row.key)) + row.quantity
    ensures RowsFor(view, MovesOf(rows + [row])) == rows + [row]
  {
    var moves := MovesOf(rows + [row]);
    assert moves[..|moves| - 1] == MovesOf(rows) && moves[|moves| - 1] == MoveOf(row);
  }

  // Rows that run on from what the view says are the ones the plan writes.
  lemma {:induction false} RunningRowsArePlanned(view: map<Key, Slot>, rows: seq<Txn>)
    requires forall i :: 0 <= i < |rows| ==> PlannedAt(view, rows, i)
    ensures RowsFor(view, MovesOf(rows)) == rows
  {
    if rows != [] {
      var n := |rows| - 1;
      forall i | 0 <= i < n ensures PlannedAt(view, rows[..n], i) {
        assert PlannedAt(view, rows, i);
        assert rows[..n][..i + 1] == rows[..i + 1];
      }
      RunningRowsArePlanned(view, rows[..n]);
      assert PlannedAt(view, rows, n) && rows[..n + 1] == rows && rows[..n] + [rows[n]] == rows;
      SumSnoc(rows[..n], rows[n], QuantityOn(rows[n].key));
      RowsForNext(view, rows[..n], rows[n]);
    }
  }

  function ViewOf(db: Db, w: Work): map<Key, Slot> {
    View(StoreOf(db), w.keys)
  }

  lemma {:induction false} MoveKeys(rows: seq<Txn>, k: Key)
    ensures k in KeysOfMoves(MovesOf(rows)) <==> k in KeysOf(rows)
  {
    var keys := KeysOfMoves(MovesOf(rows));
    if k in keys { var i :| 0 <= i < |keys| && keys[i] == k; assert rows[i] in rows; }
    if k in KeysOf(rows) {
      var t :| t in rows && t.key == k;
      var i :| 0 <= i < |rows| && rows[i] == t;
      assert keys[i] == k;
    }
  }

  lemma {:induction false} SameCover(db: Db, view: map<Key, Slot>, rows: seq<Txn>)
    requires forall k :: k in view <==> k in KeysOf(rows)
    requires forall k :: k in view ==> view[k] == StoreOf(db)(k)
    ensures CoveredIn(view, rows) <==> Covered(db.balances, rows)
  {
  }

  // The plan reads exactly the keys of its rows, refuses exactly what the tables cannot bear, and otherwise writes the
  // rows.
  lemma {:induction false} ReadyRowsArePlanned(db: Db, rows: seq<Txn>, direction: int, claim: Option<nat>)
    requires forall i :: 0 <= i < |rows| ==> LedgerRules.RowReady(db.balances, rows, direction, i)
    ensures var w := DocumentWork(claim, MovesOf(rows));
      w.plan(ViewOf(db, w)) == if Covered(db.balances, rows) then Some(rows) else None
  {
    var w := DocumentWork(claim, MovesOf(rows));
    var view := ViewOf(db, w);
    forall k ensures k in view <==> k in KeysOf(rows) { MoveKeys(rows, k); }
    forall i | 0 <= i < |rows| ensures PlannedAt(view, rows, i) {
      assert LedgerRules.RowReady(db.balances, rows, direction, i);
      assert rows[i] in rows && rows[i].key in view;
    }
    RunningRowsArePlanned(view, rows);
    SameCover(db, view, rows);
  }

  lemma {:induction false} ReadyRowsAreSound(db: Db, rows: seq<Txn>, direction: int, claim: Option<nat>)
    requires direction == 1 || direction == -1
    requires forall i :: 0 <= i < |rows| ==> LedgerRules.RowReady(db.balances, rows, direction, i)
    ensures Sound(DocumentWork(claim, MovesOf(rows)))
  {
    forall i | 0 <= i < |rows| ensures Signed(rows[i]) && direction * rows[i].quantity > 0 {
      assert LedgerRules.RowReady(db.balances, rows, direction, i);
    }
    DocumentWorkIsSound(claim, MovesOf(rows), direction == -1);
  }

  // What the service leaves of the stock is what the sequential run of its transaction leaves.
  ghost predicate RunsAs(db: Db, after: Db, w: Work) {
    && Sound(w) && w.plan(ViewOf(db, w)).Some?
    && forall k :: Serial(StoreOf(db), [w])(k) == StoreOf(after)(k)
  }

  lemma {:induction false} PostedRunsAs(db: Db, after: Db, rows: seq<Txn>, w: Work)
    requires Sound(w) && w.plan(ViewOf(db, w)) == Some(rows)
    requires after.ledger == db.ledger + rows && after.balances == Post(db.balances, rows)
    ensures RunsAs(db, after, w)
  {
    forall k ensures Serial(StoreOf(db), [w])(k) == StoreOf(after)(k) {
      OneSerial(StoreOf(db), w, k);
      PostingIsSlotwise(db.ledger, db.balances, rows, k);
    }
  }

  function NewRows(db: Db, after: Db): seq<Txn>
    requires |db.ledger| <= |after.ledger|
  {
    after.ledger[|db.ledger|..]
  }

  lemma {:induction false} ReceiptPostsRows(db: Db, after: Db, po: nat, warehouse: int,
                                            todo: seq<Receipts.ReceiveRequest>)
    returns (rows: seq<Txn>)
    requires forall j :: 0 <= j < |db.poLines| ==> db.poLines[j].price >= 0
    requires ReceiptRules.IsReceipt(db, after, po, warehouse, todo)
    ensures after.ledger == db.ledger + rows && after.balances == Post(db.balances, rows) && Covered(db.balances, rows)
    ensures forall i :: 0 <= i < |rows| ==> LedgerRules.RowReady(db.balances, rows, 1, i)
  {
    var r := Receipts.ReceiveGoods(db, warehouse, todo).value;
    rows := r.w.rows;
    LedgerRules.ReceivedRowsReady(db, warehouse, todo, r.w);
    LedgerRules.AppliedRowsPost(db.balances, Receipts.KeysOrdered(db.poLines, warehouse, todo), 1, rows);
  }

  // create_receipt, as a transaction: no claim, the keys and rows of its lines, and it leaves what the service leaves.
  lemma {:induction false} ReceiptRunsAsWork(db: Db, m: Master, po: nat, warehouse: int,
          items: seq<Receipts.ReceiveRequest>, after: Db)
    requires Valid(db) && Receipts.CreatedReceipt(db, m, po, warehouse, items) == Ok(after)
    ensures |db.ledger| <= |after.ledger|
    ensures RunsAs(db, after, DocumentWork(None, MovesOf(NewRows(db, after))))
  {
    ReceiptRules.CreatedReceiptIs(db, m, po, warehouse, items, after);
    PriceNonNegative(db.pos, db.poLines);
    var rows := ReceiptPostsRows(db, after, po, warehouse, Receipts.Ordered(items));
    assert NewRows(db, after) == rows;
    ReadyRowsArePlanned(db, rows, 1, None);
    ReadyRowsAreSound(db, rows, 1, None);
    PostedRunsAs(db, after, rows, DocumentWork(None, MovesOf(rows)));
  }

  // Claim rows of receipts and of counts, in one numbering.
  function ReceiptRow(receipt: nat): nat { 2 * receipt }

  function CountRow(count: nat): nat { 2 * count + 1 }

  function ReversalWork(db: Db, receipt: nat): Work
    requires LedgerRules.ReversibleIn(db, receipt)
  {
    DocumentWork(Some(ReceiptRow(receipt)), MovesOf(LedgerRules.UndoRows(db, receipt)))
  }

  // reverse_receipt, as a transaction: it claims its receipt, is refused exactly when the service refuses, and
  // otherwise leaves what the service leaves.
  lemma {:induction false} ReversalRunsAsWork(db: Db, receipt: nat)
    requires Valid(db) && receipt < |db.receipts| && db.receipts[receipt].status == Posted
    ensures LedgerRules.ReversibleIn(db, receipt) && Stored(db)
    ensures var w, r := ReversalWork(db, receipt), Receipts.ReversedReceipt(db, receipt);
      && Sound(w) && (r.Ok? <==> w.plan(ViewOf(db, w)).Some?)
      && (r.Ok? ==> RunsAs(db, r.value, w))
  {
    hide Valid, RequisitionKeys, OrderKeys, BalanceChecks, LedgerRules.ReversibleIn, Sound, RunsAs, Covered;
    PostedIsReversible(db, receipt);
    ValidIsStored(db);
    var rows := LedgerRules.UndoRows(db, receipt);
    UndoneRowsReady(db, receipt);
    LedgerRules.UndoGoodsPosts(db, receipt);
    ReadyRowsArePlanned(db, rows, -1, Some(ReceiptRow(receipt)));
    ReadyRowsAreSound(db, rows, -1, Some(ReceiptRow(receipt)));
    var r := Receipts.ReversedReceipt(db, receipt);
    if r.Ok? { PostedRunsAs(db, r.value, rows, ReversalWork(db, receipt)); }
  }

  lemma {:induction false} UndoneRowsReady(db: Db, receipt: nat)
    requires LedgerRules.ReversibleIn(db, receipt)
    ensures var rows := LedgerRules.UndoRows(db, receipt);
      forall i :: 0 <= i < |rows| ==> LedgerRules.RowReady(db.balances, rows, -1, i)
  {
    var rows, ns := LedgerRules.UndoRows(db, receipt), Receipts.LinesOf(db.receiptLines, receipt);
    LedgerRules.UndoRowsReady(db, receipt);
    forall i | 0 <= i < |rows| ensures LedgerRules.RowReady(db.balances, rows, -1, i) {
      assert LedgerRules.RowUndoes(db, receipt, ns[i], rows, i);
    }
  }
}
