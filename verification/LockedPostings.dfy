/** The postings of receipts and reversals as locked transactions: the stock stays in order under any interleaving. */
module LockedPostings {
  import opened Sums
  import opened Tables
  import opened Inventory
  import opened LockProtocol

  // ---------------------------------------------------------------------------------------------
  // One key at a time
  // ---------------------------------------------------------------------------------------------

  lemma {:induction false} RowsOnMembers(rows: seq<Txn>, k: Key)
    ensures forall t :: t in RowsOn(rows, k) <==> t in rows && t.key == k
  {
    if rows != [] {
      RowsOnMembers(rows[..|rows| - 1], k);
      assert rows == rows[..|rows| - 1] + [rows[|rows| - 1]];
    }
  }

  // Rows of other keys that count nothing may be left out of a sum.
  lemma {:induction false} RowsOnSumOf(rows: seq<Txn>, k: Key, f: Txn -> int)
    requires forall t :: t in rows && t.key != k ==> f(t) == 0
    ensures Sum(RowsOn(rows, k), f) == Sum(rows, f)
  {
    if rows != [] {
      var init, row := rows[..|rows| - 1], rows[|rows| - 1];
      RowsOnSumOf(init, k, f);
      SumSnoc(RowsOn(init, k), row, f);
    }
  }

  lemma {:induction false} RowsOnSum(rows: seq<Txn>, k: Key)
    ensures Sum(RowsOn(rows, k), QuantityOn(k)) == Sum(rows, QuantityOn(k))
    ensures Sum(RowsOn(rows, k), AmountOn(k)) == Sum(rows, AmountOn(k))
    ensures forall t :: t in RowsOn(rows, k) <==> t in rows && t.key == k
  {
    hide Sum, RowsOn;
    RowsOnMembers(rows, k);
    RowsOnSumOf(rows, k, QuantityOn(k));
    RowsOnSumOf(rows, k, AmountOn(k));
  }

  // A key's own ledger rows agree with its balance, and replay.
  predicate SlotOk(key: Key, slot: Slot) {
    && (forall t :: t in slot.rows ==> t.key == key)
    && Agrees(slot.rows, key, slot.balance) && Replays(slot.rows)
  }

  predicate RunsFrom(start: int, key: Key, rows: seq<Txn>, j: nat)
    requires j < |rows|
  {
    rows[j].after == start + Sum(rows[..j + 1], QuantityOn(key))
  }

  predicate AllRunFrom(start: int, key: Key, rows: seq<Txn>) {
    forall j :: 0 <= j < |rows| ==> RunsFrom(start, key, rows, j)
  }

  lemma {:induction false} RunsFromNext(start: int, key: Key, rows: seq<Txn>, row: Txn)
    requires AllRunFrom(start, key, rows)
    requires row.key == key && row.after == start + Sum(rows, QuantityOn(key)) + row.quantity
    ensures AllRunFrom(start, key, rows + [row])
  {
    SumSnoc(rows, row, QuantityOn(key));
    forall j | 0 <= j < |rows + [row]| ensures RunsFrom(start, key, rows + [row], j) {
      if j < |rows| {
        assert RunsFrom(start, key, rows, j);
        assert (rows + [row])[..j + 1] == rows[..j + 1];
      } else {
        assert (rows + [row])[..j + 1] == rows + [row];
      }
    }
  }

  // New rows on one key: they run on from its balance and never take it below zero.
  predicate RunsOn(key: Key, b: Balance, rows: seq<Txn>) {
    && (forall t :: t in rows ==> t.key == key && Signed(t)) && OneWay(rows)
    && AllRunFrom(b.quantity, key, rows)
    && (rows != [] ==> b.quantity + Sum(rows, QuantityOn(key)) >= 0 && b.total + Sum(rows, AmountOn(key)) >= 0)
  }

  lemma {:induction false} OwnRowsReplay(key: Key, slot: Slot, own: seq<Txn>)
    requires SlotOk(key, slot) && RunsOn(key, slot.balance, own)
    ensures Replays(slot.rows + own)
  {
    forall i | 0 <= i < |slot.rows + own| ensures RowReplays(slot.rows + own, i) {
      if i < |slot.rows| {
        OldRowReplays(slot.rows, own, i);
      } else {
        assert own[i - |slot.rows|] in own && RunsFrom(slot.balance.quantity, key, own, i - |slot.rows|);
        NewRowReplays(slot.rows, slot.balance, own, i - |slot.rows|);
      }
    }
  }

  lemma {:induction false} PostedStaysOk(key: Key, slot: Slot, rows: seq<Txn>)
    requires SlotOk(key, slot) && RunsOn(key, slot.balance, RowsOn(rows, key))
    ensures SlotOk(key, WithPosting(slot, rows, key))
  {
    var own := RowsOn(rows, key);
    SameAfter(slot.balance, rows, key);
    if own == [] { assert KeysOf(own) == {}; }
    PostKeepsAgreement(slot.rows, slot.balance, own, key);
    OwnRowsReplay(key, slot, own);
  }

  // Only a key's own rows move its balance.
  lemma {:induction false} SameAfter(b: Balance, rows: seq<Txn>, key: Key)
    ensures After(b, rows, key) == After(b, RowsOn(rows, key), key)
  {
    RowsOnSum(rows, key);
    assert key in KeysOf(rows) <==> key in KeysOf(RowsOn(rows, key)) by {
      if key in KeysOf(rows) { var t :| t in rows && t.key == key; assert t in RowsOn(rows, key); }
    }
  }

  // A transaction whose plan runs on from whatever sound slots it reads.
  ghost predicate Sound(w: Work) {
    && WorkOk(w)
    && forall view :: w.plan(view).Some? && view.Keys == (set k | k in w.keys) && (forall k :: k in view ==>
          SlotOk(k, view[k])) ==>
         PlanRunsOn(w, view)
  }

  ghost predicate PlanRunsOn(w: Work, view: map<Key, Slot>) {
    w.plan(view).Some? && forall k :: k in view ==> RunsOn(k, view[k].balance, RowsOn(w.plan(view).value, k))
  }

  // Running sound transactions one after the other keeps every balance a cache of its ledger rows.
  lemma {:induction false} SerialKeepsStock(store: Store, works: seq<Work>)
    requires forall k :: SlotOk(k, store(k))
    requires forall i :: 0 <= i < |works| ==> Sound(works[i])
    ensures forall k :: SlotOk(k, Serial(store, works)(k))
  {
    if works != [] {
      var n := |works| - 1;
      SerialKeepsStock(store, works[..n]);
      var before, w := Serial(store, works[..n]), works[n];
      var view := View(before, w.keys);
      if w.plan(view).Some? {
        var rows := w.plan(view).value;
        assert PlanRunsOn(w, view);
        forall k ensures SlotOk(k, WithPosting(before(k), rows, k)) {
          if k in w.keys {
            PostedStaysOk(k, before(k), rows);
          } else {
            PostedElsewhere(before(k), rows, k);
          }
        }
      }
    }
  }

  // In every schedule of sound transactions, at every moment, on every key that is not being posted: balance and ledger
  // agree in quantity and value, the average is the quotient, and every balance_after is the running sum.
  lemma {:induction false} StockUnderConcurrency(run: seq<State>, i: nat, k: Key)
    requires Schedule(run) && i < |run| && Quiet(run[i], k)
    requires forall key :: SlotOk(key, run[0].store(key))
    requires forall t :: 0 <= t < |run[i].processes| ==> Sound(run[i].processes[t].work)
    ensures SlotOk(k, run[i].store(k))
  {
    Serializable(run, i);
    SerialKeepsStock(run[0].store, WorksOf(run[i]));
  }

  // ---------------------------------------------------------------------------------------------
  // The plan of a receipt or a reversal
  // ---------------------------------------------------------------------------------------------

  // What a document line moves: everything of its ledger row but balance_after.
  datatype Move = Move(kind: TxnType, key: Key, quantity: int, unitCost: int, amount: int, source: TxnSource,
                       reversed: Option<nat>)

  function QuantityIn(view: map<Key, Slot>, key: Key): int {
    if key in view then view[key].balance.quantity else 0
  }

  // The rows in document order, each carrying the running quantity of its key.
  function RowsFor(view: map<Key, Slot>, moves: seq<Move>): (r: seq<Txn>)
    ensures |r| == |moves|
  {
    if moves == [] then [] else
      var init, m := RowsFor(view, moves[..|moves| - 1]), moves[|moves| - 1];
      init + [Txn(m.kind, m.key, m.quantity, m.unitCost, m.amount,
                  QuantityIn(view, m.key) + Sum(init, QuantityOn(m.key)) + m.quantity,
                  m.source, m.reversed)]
  }

  predicate CoveredIn(view: map<Key, Slot>, rows: seq<Txn>) {
    forall k :: k in view ==>
      view[k].balance.quantity + Sum(rows, QuantityOn(k)) >= 0 && view[k].balance.total + Sum(rows, AmountOn(k)) >= 0
  }

  // All rows are written, unless some key would go below zero.
  function PlanOf(moves: seq<Move>): map<Key, Slot> -> Option<seq<Txn>> {
    (view: map<Key, Slot>) => if CoveredIn(view, RowsFor(view, moves)) then Some(RowsFor(view, moves)) else None
  }

  function KeysOfMoves(moves: seq<Move>): (r: seq<Key>)
    ensures |r| == |moves| && forall i :: 0 <= i < |r| ==> r[i] == moves[i].key
  {
    seq(|moves|, i requires 0 <= i < |moves| => moves[i].key)
  }

  // A receipt claims no row, a reversal claims its receipt.
  function DocumentWork(claim: Option<nat>, moves: seq<Move>): Work {
    Work(claim, KeysOfMoves(moves), |moves|, PlanOf(moves))
  }

  // A receipt only brings in, a reversal only takes out.
  predicate MovesOk(moves: seq<Move>, outbound: bool) {
    forall i :: 0 <= i < |moves| ==>
      && IsOutbound(moves[i].kind) == outbound && moves[i].unitCost >= 0
      && if outbound then moves[i].quantity < 0 && moves[i].amount <= 0
         else moves[i].quantity > 0 && moves[i].amount >= 0
  }

  predicate Directed(t: Txn, outbound: bool) {
    Signed(t) && if outbound then t.quantity < 0 else t.quantity > 0
  }

  lemma {:induction false} RowsForDirected(view: map<Key, Slot>, moves: seq<Move>, outbound: bool)
    requires MovesOk(moves, outbound)
    ensures forall i :: 0 <= i < |moves| ==>
      Directed(RowsFor(view, moves)[i], outbound) && RowsFor(view, moves)[i].key == moves[i].key
  {
    if moves != [] { RowsForDirected(view, moves[..|moves| - 1], outbound); }
  }

  lemma {:induction false} RowsForRun(view: map<Key, Slot>, moves: seq<Move>, k: Key)
    ensures AllRunFrom(QuantityIn(view, k), k, RowsOn(RowsFor(view, moves), k))
  {
    if moves != [] {
      var n := |moves| - 1;
      var init, rows := RowsFor(view, moves[..n]), RowsFor(view, moves);
      RowsForRun(view, moves[..n], k);
      assert rows[..n] == init;
      if rows[n].key == k {
        RowsOnSum(init, k);
        RunsFromNext(QuantityIn(view, k), k, RowsOn(init, k), rows[n]);
      }
    }
  }

  lemma {:induction false} RowsForKeys(view: map<Key, Slot>, moves: seq<Move>, outbound: bool)
    requires MovesOk(moves, outbound)
    ensures forall t :: t in RowsFor(view, moves) ==> t.key in KeysOfMoves(moves) && Directed(t, outbound)
  {
    var rows := RowsFor(view, moves);
    RowsForDirected(view, moves, outbound);
    forall t | t in rows ensures t.key in KeysOfMoves(moves) && Directed(t, outbound) {
      var i :| 0 <= i < |rows| && rows[i] == t;
      assert KeysOfMoves(moves)[i] == t.key;
    }
  }

  lemma {:induction false} CoveredPlanRunsOn(view: map<Key, Slot>, moves: seq<Move>, outbound: bool, k: Key)
    requires MovesOk(moves, outbound) && CoveredIn(view, RowsFor(view, moves)) && k in view
    ensures RunsOn(k, view[k].balance, RowsOn(RowsFor(view, moves), k))
  {
    RowsForKeys(view, moves, outbound);
    RowsForRun(view, moves, k);
    RowsOnSum(RowsFor(view, moves), k);
  }

  // Receipts and reversals are sound: StockUnderConcurrency applies to any mix of them.
  lemma {:induction false} DocumentWorkIsSound(claim: Option<nat>, moves: seq<Move>, outbound: bool)
    requires MovesOk(moves, outbound)
    ensures Sound(DocumentWork(claim, moves))
  {
    var w := DocumentWork(claim, moves);
    forall view: map<Key, Slot> | w.plan(view).Some?
      ensures |w.plan(view).value| <= w.limit && forall t :: t in w.plan(view).value ==> t.key in w.keys
      ensures PlanRunsOn(w, view)
    {
      RowsForKeys(view, moves, outbound);
      forall k | k in view ensures RunsOn(k, view[k].balance, RowsOn(RowsFor(view, moves), k)) {
        CoveredPlanRunsOn(view, moves, outbound, k);
      }
    }
  }
}
