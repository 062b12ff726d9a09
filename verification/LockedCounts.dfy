/** Posting a count as a locked transaction: guards read under lock, so two counts of one snapshot never both post. */
module LockedCounts {
  import opened Sums
  import opened Tables
  import opened Inventory
  import opened LockProtocol
  import opened LockedPostings
  import opened LockedServices
  import opened Counts
  import opened CountRules
  import opened Validity
  import LedgerRules

  // ---------------------------------------------------------------------------------------------
  // The plan of approve_reconciliation
  // ---------------------------------------------------------------------------------------------

  // A differing line: what it moves, how many rows its key had when it was frozen, and what was frozen.
  datatype Adjustment = Adjustment(move: Move, mark: nat, quantity: int, total: int)

  // Event guard, state guard, and neither quantity nor value below zero.
  predicate GuardsPass(view: map<Key, Slot>, a: Adjustment) {
    && a.move.key in view
    && |view[a.move.key].rows| == a.mark
    && view[a.move.key].balance.quantity == a.quantity && view[a.move.key].balance.total == a.total
    && a.quantity + a.move.quantity >= 0 && a.total + a.move.amount >= 0
  }

  predicate AllGuardsPass(view: map<Key, Slot>, adjustments: seq<Adjustment>) {
    forall i :: 0 <= i < |adjustments| ==> GuardsPass(view, adjustments[i])
  }

  function MovesIn(adjustments: seq<Adjustment>): (r: seq<Move>)
    ensures |r| == |adjustments| && forall i :: 0 <= i < |r| ==> r[i] == adjustments[i].move
  {
    seq(|adjustments|, i requires 0 <= i < |adjustments| => adjustments[i].move)
  }

  function CountPlan(adjustments: seq<Adjustment>): map<Key, Slot> -> Option<seq<Txn>> {
    (view: map<Key, Slot>) =>
      if AllGuardsPass(view, adjustments) then Some(RowsFor(view, MovesIn(adjustments))) else None
  }

  function CountWork(claim: nat, adjustments: seq<Adjustment>): Work {
    Work(Some(claim), KeysOfMoves(MovesIn(adjustments)), |adjustments|, CountPlan(adjustments))
  }

  predicate DistinctKeys(moves: seq<Move>) {
    forall i, j :: 0 <= i < j < |moves| ==> moves[i].key != moves[j].key
  }

  predicate SignedMove(m: Move) {
    m.unitCost >= 0 && if IsOutbound(m.kind) then m.quantity < 0 && m.amount <= 0 else m.quantity > 0 && m.amount >= 0
  }

  predicate AdjustmentsOk(adjustments: seq<Adjustment>) {
    DistinctKeys(MovesIn(adjustments)) && forall i :: 0 <= i < |adjustments| ==> SignedMove(adjustments[i].move)
  }

  lemma {:induction false} RowsForMoves(view: map<Key, Slot>, moves: seq<Move>)
    ensures forall i :: 0 <= i < |moves| ==> MoveOf(RowsFor(view, moves)[i]) == moves[i]
  {
    if moves != [] { RowsForMoves(view, moves[..|moves| - 1]); }
  }

  // With distinct keys, a key's rows are at most one.
  lemma {:induction false} OnlyRowOn(rows: seq<Txn>, i: nat)
    requires i < |rows| && forall j, k :: 0 <= j < k < |rows| ==> rows[j].key != rows[k].key
    ensures RowsOn(rows, rows[i].key) == [rows[i]]
  {
    var n := |rows| - 1;
    if i == n {
      forall t | t in rows[..n] ensures t.key != rows[n].key { var j :| 0 <= j < n && rows[j] == t; }
      NoRowsOn(rows[..n], rows[n].key);
    } else {
      OnlyRowOn(rows[..n], i);
    }
  }

  lemma {:induction false} OneRowRunsOn(key: Key, b: Balance, row: Txn)
    requires AllRunFrom(b.quantity, key, [row]) && row.key == key && Signed(row)
    requires b.quantity + row.quantity >= 0 && b.total + row.amount >= 0
    ensures RunsOn(key, b, [row])
  {
    SumSnoc([], row, QuantityOn(key));
    SumSnoc([], row, AmountOn(key));
    assert [] + [row] == [row];
  }

  lemma {:induction false} PlannedKeysDiffer(view: map<Key, Slot>, moves: seq<Move>)
    requires DistinctKeys(moves)
    ensures forall j, k :: 0 <= j < k < |moves| ==> RowsFor(view, moves)[j].key != RowsFor(view, moves)[k].key
  {
    var rows := RowsFor(view, moves);
    RowsForMoves(view, moves);
    forall j, k | 0 <= j < k < |moves| ensures rows[j].key != rows[k].key {
      assert MoveOf(rows[j]) == moves[j] && MoveOf(rows[k]) == moves[k];
    }
  }

  lemma {:induction false} GuardedRowRunsOn(view: map<Key, Slot>, adjustments: seq<Adjustment>, i: nat)
    requires AdjustmentsOk(adjustments) && AllGuardsPass(view, adjustments) && i < |adjustments|
    ensures var k := adjustments[i].move.key; RunsOn(k, view[k].balance, RowsOn(RowsFor(view, MovesIn(adjustments)), k))
  {
    hide RunsOn, AllRunFrom, RowsFor, RowsOn;
    var moves := MovesIn(adjustments);
    var rows, k := RowsFor(view, moves), moves[i].key;
    RowsForMoves(view, moves);
    PlannedKeysDiffer(view, moves);
    assert MoveOf(rows[i]) == moves[i] && SignedMove(adjustments[i].move) && GuardsPass(view, adjustments[i]);
    OnlyRowOn(rows, i);
    RowsForRun(view, moves, k);
    OneRowRunsOn(k, view[k].balance, rows[i]);
  }

  lemma {:induction false} CountPlanRunsOn(view: map<Key, Slot>, adjustments: seq<Adjustment>, k: Key)
    requires AdjustmentsOk(adjustments) && AllGuardsPass(view, adjustments) && k in view
    ensures RunsOn(k, view[k].balance, RowsOn(RowsFor(view, MovesIn(adjustments)), k))
  {
    var rows := RowsFor(view, MovesIn(adjustments));
    if i :| 0 <= i < |adjustments| && adjustments[i].move.key == k {
      GuardedRowRunsOn(view, adjustments, i);
    } else {
      RowsForMoves(view, MovesIn(adjustments));
      forall t | t in rows ensures t.key != k {
        var i :| 0 <= i < |rows| && rows[i] == t;
        assert MoveOf(rows[i]) == MovesIn(adjustments)[i];
      }
      NoRowsOn(rows, k);
    }
  }

  // A count approval is sound: StockUnderConcurrency applies to any mix of receipts, reversals and counts.
  lemma {:induction false} CountWorkIsSound(claim: nat, adjustments: seq<Adjustment>)
    requires AdjustmentsOk(adjustments)
    ensures Sound(CountWork(claim, adjustments))
  {
    var w := CountWork(claim, adjustments);
    forall view: map<Key, Slot> | w.plan(view).Some?
      ensures |w.plan(view).value| <= w.limit && forall t :: t in w.plan(view).value ==> t.key in w.keys
      ensures PlanRunsOn(w, view)
    {
      var rows := w.plan(view).value;
      RowsForMoves(view, MovesIn(adjustments));
      forall t | t in rows ensures t.key in w.keys {
        var i :| 0 <= i < |rows| && rows[i] == t;
        assert MoveOf(rows[i]) == MovesIn(adjustments)[i] && w.keys[i] == t.key;
      }
      forall k | k in view ensures RunsOn(k, view[k].balance, RowsOn(rows, k)) {
        CountPlanRunsOn(view, adjustments, k);
      }
    }
  }

  // ---------------------------------------------------------------------------------------------
  // No two of them from the same snapshot
  // ---------------------------------------------------------------------------------------------

  // Transaction i of the sequential run did not refuse what it read.
  ghost predicate PlannedStep(init: Store, works: seq<Work>, i: nat)
    requires i < |works|
  {
    works[i].plan(View(Serial(init, works[..i]), works[i].keys)).Some?
  }

  ghost predicate AllPlanned(init: Store, works: seq<Work>) {
    forall i :: 0 <= i < |works| ==> PlannedStep(init, works, i)
  }

  lemma {:induction false} CommitKeepsPlanned(s: State, t: nat, s2: State, init: Store)
    requires Inv(s, init) && t < |s.processes| && Commit(s, t, s2) && AllPlanned(init, WorksOf(s))
    ensures OrderFits(s2) && AllPlanned(init, WorksOf(s2))
  {
    CommitKeepsOrder(s, t, s2);
    var works, w := WorksOf(s), s.processes[t].work;
    assert ProcessFits(s.store, Serial(init, works), s.processes[t]);
    forall i | 0 <= i < |works + [w]| ensures PlannedStep(init, works + [w], i) {
      if i < |works| {
        assert PlannedStep(init, works, i) && (works + [w])[..i] == works[..i];
      } else {
        assert (works + [w])[..i] == works;
      }
    }
  }

  lemma {:induction false} OtherStepsKeepWorks(s: State, t: nat, s2: State)
    requires OrderFits(s) && t < |s.processes|
    requires Lock(s, t, s2) || Plan(s, t, s2) || Append(s, t, s2) || Write(s, t, s2) || Abort(s, t, s2)
    ensures OrderFits(s2) && WorksOf(s2) == WorksOf(s)
  {
    OrderKept(s, t, s2.processes[t].phase, s2);
  }

  lemma {:induction false} NextKeepsPlanned(s: State, s2: State, init: Store)
    requires Inv(s, init) && Next(s, s2) && AllPlanned(init, WorksOf(s))
    ensures OrderFits(s2) && AllPlanned(init, WorksOf(s2))
  {
    var t :| StepOf(s, t, s2);
    hide Lock, Plan, Append, Write, Abort, Commit, Exclusive, ClaimsFit, StoreFits, AllPlanned;
    if Commit(s, t, s2) {
      CommitKeepsPlanned(s, t, s2, init);
    } else {
      OtherStepsKeepWorks(s, t, s2);
    }
  }

  lemma {:induction false} ScheduleKeepsPlanned(run: seq<State>, i: nat)
    requires Schedule(run) && i < |run|
    ensures OrderFits(run[i]) && AllPlanned(run[0].store, WorksOf(run[i]))
  {
    ScheduleKeepsInv(run, i);
    if i == 0 {
      assert WorksOf(run[0]) == [];
    } else {
      hide Inv, AllPlanned, Next;
      ScheduleKeepsPlanned(run, i - 1);
      ScheduleKeepsInv(run, i - 1);
      assert Next(run[i - 1], run[i - 1 + 1]);
      NextKeepsPlanned(run[i - 1], run[i], run[0].store);
    }
  }

  // How many rows a key has after the first i transactions.
  function RowCount(init: Store, works: seq<Work>, i: nat, k: Key): nat
    requires i <= |works|
  {
    |Serial(init, works[..i])(k).rows|
  }

  // The sequential run only ever adds rows.
  lemma {:induction false} RowCountGrows(init: Store, works: seq<Work>, i: nat, j: nat, k: Key)
    requires i <= j <= |works|
    ensures RowCount(init, works, i, k) <= RowCount(init, works, j, k)
    decreases j
  {
    if i < j {
      RowCountGrows(init, works, i, j - 1, k);
      assert works[..j][..j - 1] == works[..j - 1];
    }
  }

  lemma {:induction false} PlannedRowOn(view: map<Key, Slot>, adjustments: seq<Adjustment>, x: nat)
    requires x < |adjustments|
    ensures |RowsOn(RowsFor(view, MovesIn(adjustments)), adjustments[x].move.key)| > 0
  {
    var rows := RowsFor(view, MovesIn(adjustments));
    RowsForMoves(view, MovesIn(adjustments));
    assert MoveOf(rows[x]) == MovesIn(adjustments)[x];
    RowsOnSum(rows, rows[x].key);
    assert rows[x] in RowsOn(rows, rows[x].key);
  }

  // A count that did not refuse what it read adds a row on each of its keys, right where it was frozen.
  lemma {:induction false} PostedCountAdds(init: Store, works: seq<Work>, a: nat, claim: nat,
                                           adjustments: seq<Adjustment>, x: nat)
    requires a < |works| && PlannedStep(init, works, a) && works[a] == CountWork(claim, adjustments)
    requires x < |adjustments|
    ensures RowCount(init, works, a, adjustments[x].move.key) == adjustments[x].mark
    ensures RowCount(init, works, a + 1, adjustments[x].move.key) > adjustments[x].mark
  {
    hide RowsFor, RowsOn;
    var before, w, k := Serial(init, works[..a]), works[a], adjustments[x].move.key;
    var view := View(before, w.keys);
    assert GuardsPass(view, adjustments[x]);
    PlannedRowOn(view, adjustments, x);
    assert works[..a + 1] == works[..a] + [w];
    SerialNext(init, works[..a], w, w.plan(view).value);
  }

  lemma {:induction false} NoDoubleAdjustmentInSerial(init: Store, works: seq<Work>, a: nat, b: nat, claims: (nat, nat),
          first: seq<Adjustment>, second: seq<Adjustment>, x: nat, y: nat)
    requires a < b < |works| && PlannedStep(init, works, a) && PlannedStep(init, works, b)
    requires works[a] == CountWork(claims.0, first) && works[b] == CountWork(claims.1, second)
    requires x < |first| && y < |second| && first[x].move.key == second[y].move.key
    ensures first[x].mark != second[y].mark
  {
    hide PlannedStep, CountWork, RowCount;
    PostedCountAdds(init, works, a, claims.0, first, x);
    PostedCountAdds(init, works, b, claims.1, second, y);
    RowCountGrows(init, works, a + 1, b, first[x].move.key);
  }

  // In every schedule, two committed counts that were frozen at the same point of a key never both adjust that key.
  lemma {:induction false} NoDoubleAdjustmentInterleaved(run: seq<State>, i: nat, a: nat, b: nat, claims: (nat, nat),
          first: seq<Adjustment>, second: seq<Adjustment>, x: nat, y: nat)
    requires Schedule(run) && i < |run| && a < b < |run[i].order| && OrderFits(run[i])
    requires WorksOf(run[i])[a] == CountWork(claims.0, first) && WorksOf(run[i])[b] == CountWork(claims.1, second)
    requires x < |first| && y < |second| && first[x].move.key == second[y].move.key
    ensures first[x].mark != second[y].mark
  {
    hide Schedule, CountWork;
    ScheduleKeepsPlanned(run, i);
    var init, works := run[0].store, WorksOf(run[i]);
    assert PlannedStep(init, works, a) && PlannedStep(init, works, b);
    NoDoubleAdjustmentInSerial(init, works, a, b, claims, first, second, x, y);
  }

  // ---------------------------------------------------------------------------------------------
  // approve_reconciliation is that transaction
  // ---------------------------------------------------------------------------------------------

  function Prefix(ledger: seq<Txn>, mark: nat): seq<Txn> {
    if mark <= |ledger| then ledger[..mark] else ledger
  }

  function AdjustmentOf(ledger: seq<Txn>, warehouse: int, doc: nat, n: nat, item: CountItem): Adjustment {
    Adjustment(MoveOf(RowOf(warehouse, doc, item, n)),
               |RowsOn(Prefix(ledger, item.watermark), Key(warehouse, item.material))|,
               item.bookQuantity, item.bookTotal)
  }

  // The adjustments of a count's differing lines, in line order.
  function AdjustmentsOf(ledger: seq<Txn>, warehouse: int, doc: nat, items: seq<CountItem>): seq<Adjustment> {
    if items == [] then [] else
      var n := |items| - 1;
      var init := AdjustmentsOf(ledger, warehouse, doc, items[..n]);
      if items[n].difference != 0 then init + [AdjustmentOf(ledger, warehouse, doc, n, items[n])] else init
  }

  lemma {:induction false} AdjustmentsNext(ledger: seq<Txn>, warehouse: int, doc: nat, items: seq<CountItem>, n: nat)
    requires n < |items|
    ensures AdjustmentsOf(ledger, warehouse, doc, items[..n + 1])
      == if items[n].difference != 0
         then AdjustmentsOf(ledger, warehouse, doc, items[..n]) + [AdjustmentOf(ledger, warehouse, doc, n, items[n])]
         else AdjustmentsOf(ledger, warehouse, doc, items[..n])
  {
    assert items[..n + 1][..n] == items[..n];
  }

  lemma {:induction false} QuietTail(ledger: seq<Txn>, key: Key, mark: nat)
    requires mark <= |ledger| && LastRow(ledger, key) <= mark
    ensures RowsOn(ledger[mark..], key) == []
  {
    var tail := ledger[mark..];
    forall t | t in tail ensures t.key != key {
      var i :| 0 <= i < |tail| && tail[i] == t;
      assert ledger[mark + i] == t;
    }
    NoRowsOn(tail, key);
  }

  lemma {:induction false} MovedTail(ledger: seq<Txn>, key: Key, mark: nat)
    requires mark < LastRow(ledger, key)
    ensures |RowsOn(ledger[mark..], key)| > 0
  {
    var last := LastRow(ledger, key);
    RowsOnMembers(ledger[mark..], key);
    assert ledger[mark..][last - 1 - mark] == ledger[last - 1];
    assert ledger[last - 1] in RowsOn(ledger[mark..], key);
  }

  lemma {:induction false} PrefixLastRow(ledger: seq<Txn>, key: Key, mark: nat)
    requires mark <= |ledger| && LastRow(ledger[..mark], key) == mark
    ensures LastRow(ledger, key) >= mark
  {
    assert mark > 0 ==> ledger[..mark][mark - 1] == ledger[mark - 1];
  }

  // The key moved after the snapshot exactly when it has more rows than it had then.
  lemma {:induction false} MarkCountsRows(ledger: seq<Txn>, key: Key, mark: nat)
    requires mark <= |ledger| && LastRow(ledger[..mark], key) == mark
    ensures LastRow(ledger, key) == mark <==> |RowsOn(ledger, key)| == |RowsOn(ledger[..mark], key)|
  {
    hide RowsOn, LastRow;
    assert ledger == ledger[..mark] + ledger[mark..];
    RowsOnConcat(ledger[..mark], ledger[mark..], key);
    PrefixLastRow(ledger, key, mark);
    if LastRow(ledger, key) == mark {
      QuietTail(ledger, key, mark);
    } else {
      MovedTail(ledger, key, mark);
    }
  }

  // Both guards of a differing line, read under lock, pass exactly when it can be posted.
  lemma {:induction false} GuardsMeanPostable(db: Db, view: map<Key, Slot>, warehouse: int, doc: nat, n: nat,
                                              item: CountItem)
    requires StockOk(db.ledger, db.balances) && CountRules.ItemFits(db.ledger, warehouse, item) && item.difference != 0
    requires Key(warehouse, item.material) in view
    requires view[Key(warehouse, item.material)] == SlotOf(db.ledger, db.balances, Key(warehouse, item.material))
    ensures GuardsPass(view, AdjustmentOf(db.ledger, warehouse, doc, n, item)) <==> Postable(db.ledger, warehouse, item)
  {
    var key := Key(warehouse, item.material);
    MarkCountsRows(db.ledger, key, item.watermark);
    if Current(db.ledger, warehouse, item) {
      UnmovedKeepsBook(db.ledger, db.balances, key, item.watermark, Book(item));
    }
  }

  predicate LineGuardsPass(view: map<Key, Slot>, ledger: seq<Txn>, warehouse: int, doc: nat, items: seq<CountItem>,
                           n: nat)
    requires n < |items|
  {
    items[n].difference != 0 ==> GuardsPass(view, AdjustmentOf(ledger, warehouse, doc, n, items[n]))
  }

  lemma {:induction false} OneMoreGuard(view: map<Key, Slot>, init: seq<Adjustment>, a: Adjustment)
    ensures AllGuardsPass(view, init + [a]) <==> AllGuardsPass(view, init) && GuardsPass(view, a)
  {
    if AllGuardsPass(view, init + [a]) {
      forall i | 0 <= i < |init| ensures GuardsPass(view, init[i]) { assert (init + [a])[i] == init[i]; }
      assert (init + [a])[|init|] == a;
    }
  }

  lemma {:induction false} AllGuardsByLine(view: map<Key, Slot>, ledger: seq<Txn>, warehouse: int, doc: nat,
          items: seq<CountItem>, n: nat)
    requires n <= |items|
    ensures AllGuardsPass(view, AdjustmentsOf(ledger, warehouse, doc, items[..n])) <==>
      forall m :: 0 <= m < n ==> LineGuardsPass(view, ledger, warehouse, doc, items, m)
  {
    hide GuardsPass, AllGuardsPass;
    if n == 0 {
      NoGuards(view, ledger, warehouse, doc, items);
    } else {
      AllGuardsByLine(view, ledger, warehouse, doc, items, n - 1);
      AdjustmentsNext(ledger, warehouse, doc, items, n - 1);
      OneMoreGuard(view, AdjustmentsOf(ledger, warehouse, doc, items[..n - 1]),
                   AdjustmentOf(ledger, warehouse, doc, n - 1, items[n - 1]));
      assert LineGuardsPass(view, ledger, warehouse, doc, items, n - 1) <==>
        items[n - 1].difference == 0 || GuardsPass(view, AdjustmentOf(ledger, warehouse, doc, n - 1, items[n - 1]));
    }
  }

  lemma {:induction false} NoGuards(view: map<Key, Slot>, ledger: seq<Txn>, warehouse: int, doc: nat,
                                    items: seq<CountItem>)
    ensures AllGuardsPass(view, AdjustmentsOf(ledger, warehouse, doc, items[..0]))
  {
  }

  // Where an adjustment comes from.
  lemma {:induction false} AdjustmentFromLine(ledger: seq<Txn>, warehouse: int, doc: nat, items: seq<CountItem>, i: nat)
    returns (n: nat)
    requires i < |AdjustmentsOf(ledger, warehouse, doc, items)|
    ensures n < |items| && items[n].difference != 0
    ensures AdjustmentsOf(ledger, warehouse, doc, items)[i] == AdjustmentOf(ledger, warehouse, doc, n, items[n])
  {
    n := |items| - 1;
    var init := AdjustmentsOf(ledger, warehouse, doc, items[..n]);
    if i < |init| { n := AdjustmentFromLine(ledger, warehouse, doc, items[..n], i); }
  }

  // The rows written so far are those the first n lines plan, each running on from the tables.
  ghost predicate WritesPlanned(db: Db, warehouse: int, doc: nat, items: seq<CountItem>, n: nat, rows: seq<Txn>)
    requires n <= |items|
  {
    MovesOf(rows) == MovesIn(AdjustmentsOf(db.ledger, warehouse, doc, items[..n])) && Running(db.balances, rows)
  }

  lemma {:induction false} OneMoreWritten(balances: map<Key, Balance>, rows: seq<Txn>, row: Txn,
          adjustments: seq<Adjustment>, a: Adjustment)
    requires MovesOf(rows) == MovesIn(adjustments) && Running(balances, rows)
    requires MoveOf(row) == a.move
    requires row.after == BalanceOf(balances, row.key).quantity + Sum(rows, QuantityOn(row.key)) + row.quantity
    ensures MovesOf(rows + [row]) == MovesIn(adjustments + [a]) && Running(balances, rows + [row])
  {
    LedgerRules.RunsOn(balances, rows, row);
    assert MovesOf(rows + [row]) == MovesOf(rows) + [MoveOf(row)];
    assert MovesIn(adjustments + [a]) == MovesIn(adjustments) + [a.move];
  }

  lemma {:induction false} PostItemWrites(db: Db, warehouse: int, doc: nat, items: seq<CountItem>, n: nat,
                                          w: Counts.Posting)
    requires n < |items| && PostItem(db, warehouse, doc, w, n, items[n]).Ok?
    requires WritesPlanned(db, warehouse, doc, items, n, w.rows)
    ensures WritesPlanned(db, warehouse, doc, items, n + 1, PostItem(db, warehouse, doc, w, n, items[n]).value.rows)
  {
    hide LastRow, MoveBy, Running, AdjustmentsOf, MovesOf, MovesIn;
    AdjustmentsNext(db.ledger, warehouse, doc, items, n);
    if items[n].difference != 0 {
      var row := RowFor(db, w.rows, doc, n, Key(warehouse, items[n].material), items[n]);
      OneMoreWritten(db.balances, w.rows, row, AdjustmentsOf(db.ledger, warehouse, doc, items[..n]),
                     AdjustmentOf(db.ledger, warehouse, doc, n, items[n]));
    }
  }

  lemma {:induction false} PostedMoves(db: Db, warehouse: int, doc: nat, items: seq<CountItem>, n: nat,
                                       w: Counts.Posting)
    requires n <= |items| && PostItems(db, warehouse, doc, w, n, items[n..]).Ok?
    requires WritesPlanned(db, warehouse, doc, items, n, w.rows)
    ensures WritesPlanned(db, warehouse, doc, items, |items|,
                          PostItems(db, warehouse, doc, w, n, items[n..]).value.rows)
    decreases |items| - n
  {
    hide WritesPlanned, PostItem;
    if n < |items| {
      PostItemsNext(db, warehouse, doc, items, n, w);
      PostItemWrites(db, warehouse, doc, items, n, w);
      PostedMoves(db, warehouse, doc, items, n + 1, PostItem(db, warehouse, doc, w, n, items[n]).value);
    }
  }

  function ApprovalWork(db: Db, doc: nat): Work
    requires doc < |db.counts|
  {
    CountWork(CountRow(doc), AdjustmentsOf(db.ledger, db.counts[doc].warehouse, doc, db.counts[doc].items))
  }

  lemma {:induction false} ApprovalWorkIsSound(db: Db, doc: nat)
    requires StockOk(db.ledger, db.balances) && doc < |db.counts| && CountFits(db.ledger, db.counts[doc])
    ensures Sound(ApprovalWork(db, doc))
  {
    var c := db.counts[doc];
    var adjustments := AdjustmentsOf(db.ledger, c.warehouse, doc, c.items);
    forall i | 0 <= i < |adjustments| ensures SignedMove(adjustments[i].move) {
      var n := AdjustmentFromLine(db.ledger, c.warehouse, doc, c.items, i);
      assert CountRules.ItemFits(db.ledger, c.warehouse, c.items[n]);
      AdjustRowSigned(c.warehouse, c.items[n], c.items[n].physical, CountSource(doc, n));
    }
    AdjustedKeysDiffer(db.ledger, c.warehouse, doc, c.items);
    CountWorkIsSound(CountRow(doc), adjustments);
  }

  lemma {:induction false} AdjustedKeysDiffer(ledger: seq<Txn>, warehouse: int, doc: nat, items: seq<CountItem>)
    requires DistinctMaterials(items)
    ensures DistinctKeys(MovesIn(AdjustmentsOf(ledger, warehouse, doc, items)))
  {
    if items != [] {
      var n := |items| - 1;
      AdjustedKeysDiffer(ledger, warehouse, doc, items[..n]);
      var init := AdjustmentsOf(ledger, warehouse, doc, items[..n]);
      forall i | 0 <= i < |init| && items[n].difference != 0
        ensures init[i].move.key != Key(warehouse, items[n].material)
      {
        var m := AdjustmentFromLine(ledger, warehouse, doc, items[..n], i);
      }
    }
  }

  lemma {:induction false} ApprovalReads(db: Db, doc: nat, n: nat)
    requires doc < |db.counts| && n < |db.counts[doc].items| && db.counts[doc].items[n].difference != 0
    ensures var key := Key(db.counts[doc].warehouse, db.counts[doc].items[n].material);
      && key in ViewOf(db, ApprovalWork(db, doc))
      && ViewOf(db, ApprovalWork(db, doc))[key] == SlotOf(db.ledger, db.balances, key)
  {
    var c := db.counts[doc];
    AdjustmentForLine(db.ledger, c.warehouse, doc, c.items, n, |c.items|);
    assert c.items[..|c.items|] == c.items;
    var adjustments := AdjustmentsOf(db.ledger, c.warehouse, doc, c.items);
    var i :| 0 <= i < |adjustments| && adjustments[i] == AdjustmentOf(db.ledger, c.warehouse, doc, n, c.items[n]);
    assert ApprovalWork(db, doc).keys[i] == Key(c.warehouse, c.items[n].material);
  }

  lemma {:induction false} AdjustmentForLine(ledger: seq<Txn>, warehouse: int, doc: nat, items: seq<CountItem>, n: nat,
                                             upto: nat)
    requires n < upto <= |items| && items[n].difference != 0
    ensures AdjustmentOf(ledger, warehouse, doc, n, items[n]) in AdjustmentsOf(ledger, warehouse, doc, items[..upto])
    decreases upto
  {
    hide AdjustmentOf, AdjustmentsOf;
    AdjustmentsNext(ledger, warehouse, doc, items, upto - 1);
    var all := AdjustmentsOf(ledger, warehouse, doc, items[..upto]);
    if n == upto - 1 {
      assert all[|all| - 1] == AdjustmentOf(ledger, warehouse, doc, n, items[n]);
    } else {
      AdjustmentForLine(ledger, warehouse, doc, items, n, upto - 1);
    }
  }

  lemma {:induction false} ApprovalPlansWhatPosts(db: Db, doc: nat)
    requires StockOk(db.ledger, db.balances) && doc < |db.counts| && CountFits(db.ledger, db.counts[doc])
    ensures var w := ApprovalWork(db, doc);
      w.plan(ViewOf(db, w)).Some? <==> PostingOf(db, doc).Ok?
  {
    var c, w := db.counts[doc], ApprovalWork(db, doc);
    PostingMeans(db, doc);
    assert c.items[..|c.items|] == c.items;
    AllGuardsByLine(ViewOf(db, w), db.ledger, c.warehouse, doc, c.items, |c.items|);
    forall n | 0 <= n < |c.items|
      ensures LineGuardsPass(ViewOf(db, w), db.ledger, c.warehouse, doc, c.items, n) <==>
        Postable(db.ledger, c.warehouse, c.items[n])
    {
      if c.items[n].difference != 0 {
        ApprovalReads(db, doc, n);
        assert CountRules.ItemFits(db.ledger, c.warehouse, c.items[n]);
        GuardsMeanPostable(db, ViewOf(db, w), c.warehouse, doc, n, c.items[n]);
      }
    }
  }

  lemma {:induction false} ApprovalPlansRows(db: Db, doc: nat, posted: Counts.Posting)
    requires doc < |db.counts| && PostingOf(db, doc) == Ok(posted)
    requires ApprovalWork(db, doc).plan(ViewOf(db, ApprovalWork(db, doc))).Some?
    ensures ApprovalWork(db, doc).plan(ViewOf(db, ApprovalWork(db, doc))) == Some(posted.rows)
  {
    var c, view := db.counts[doc], ViewOf(db, ApprovalWork(db, doc));
    var adjustments := AdjustmentsOf(db.ledger, c.warehouse, doc, c.items);
    assert c.items[0..] == c.items && c.items[..0] == [] && c.items[..|c.items|] == c.items;
    PostedMoves(db, c.warehouse, doc, c.items, 0,
                Counts.Posting.Posting([], Upsert(db.balances, MovingKeys(c.warehouse, c.items))));
    forall i | 0 <= i < |posted.rows| ensures PlannedAt(view, posted.rows, i) {
      assert RunsAt(db.balances, posted.rows, i);
      assert MoveOf(posted.rows[i]) == adjustments[i].move && GuardsPass(view, adjustments[i]);
    }
    RunningRowsArePlanned(view, posted.rows);
  }

  // approve_reconciliation, as a transaction: it claims its count, reads guards and balances under the locks of its
  // keys, is refused exactly when the service refuses, and otherwise leaves what the service leaves.
  lemma {:induction false} ApprovalRunsAsWork(db: Db, user: User, doc: nat, overrideFlag: bool, overrideReason: bool)
    requires Valid(db) && doc < |db.counts| && db.counts[doc].status == CountPending
    requires MayPost(db.counts[doc], user, overrideFlag, overrideReason).Ok?
    ensures var w, r := ApprovalWork(db, doc), ApprovedCount(db, user, doc, overrideFlag, overrideReason);
      && Sound(w) && (r.Ok? <==> w.plan(ViewOf(db, w)).Some?)
      && (r.Ok? ==> RunsAs(db, r.value, w))
  {
    assert CountFits(db.ledger, db.counts[doc]);
    ApprovedCountIs(db, user, doc, overrideFlag, overrideReason);
    ApprovalWorkIsSound(db, doc);
    ApprovalPlansWhatPosts(db, doc);
    var r := ApprovedCount(db, user, doc, overrideFlag, overrideReason);
    if r.Ok? {
      ApprovalPlansRows(db, doc, PostingOf(db, doc).value);
      ApprovalLeaves(db, r.value, doc);
    }
  }

  lemma {:induction false} ApprovalLeaves(db: Db, after: Db, doc: nat)
    requires StockOk(db.ledger, db.balances) && doc < |db.counts| && CountFits(db.ledger, db.counts[doc])
    requires PostingOf(db, doc).Ok?
    requires after.ledger == db.ledger + PostingOf(db, doc).value.rows
    requires after.balances == PostingOf(db, doc).value.balances
    requires Sound(ApprovalWork(db, doc))
    requires ApprovalWork(db, doc).plan(ViewOf(db, ApprovalWork(db, doc))) == Some(PostingOf(db, doc).value.rows)
    ensures RunsAs(db, after, ApprovalWork(db, doc))
  {
    var w, posted, keys := ApprovalWork(db, doc), PostingOf(db, doc).value, MovingKeys(db.counts[doc].warehouse,
                                                                                       db.counts[doc].items);
    PostingMeans(db, doc);
    forall k ensures Serial(StoreOf(db), [w])(k) == StoreOf(after)(k) {
      OneSerial(StoreOf(db), w, k);
      LockedFirst(db.ledger, db.balances, keys, posted.rows, k);
    }
  }

  // Creating the missing balances empty before posting makes no difference to any key.
  lemma {:induction false} LockedFirst(ledger: seq<Txn>, balances: map<Key, Balance>, keys: seq<Key>, rows: seq<Txn>,
                                       k: Key)
    ensures LockProtocol.WithPosting(SlotOf(ledger, balances, k), rows, k)
         == SlotOf(ledger + rows, Post(Upsert(balances, keys), rows), k)
  {
    RowsOnConcat(ledger, rows, k);
  }
}
