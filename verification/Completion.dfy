/** No document ever gets stuck: from every reachable state, what is left of the chain can be carried to its end. */
module Completion {
  import opened Sums
  import opened Sorting
  import opened Tables
  import opened Orders
  import opened OrderRules
  import opened RequisitionRules
  import opened Validity
  import opened ChainLaws
  import Acceptance
  import Requisitions
  import Receipts
  import ReceiptRules
  import StockLaws

  // ---------------------------------------------------------------------------------------------
  // Delivering what an order still lacks
  // ---------------------------------------------------------------------------------------------

  predicate Lacks(poLines: seq<PoLine>, po: nat, j: nat) {
    j < |poLines| && poLines[j].po == po && poLines[j].received < poLines[j].ordered
  }

  predicate Delivers(poLines: seq<PoLine>, po: nat, x: Receipts.ReceiveRequest) {
    Lacks(poLines, po, x.poLine) && x.quantity == poLines[x.poLine].ordered - poLines[x.poLine].received
  }

  // Everything the first n order lines still lack of order po.
  function Outstanding(poLines: seq<PoLine>, po: nat, n: nat): (r: seq<Receipts.ReceiveRequest>)
    requires n <= |poLines|
    ensures forall i :: 0 <= i < |r| ==> Delivers(poLines, po, r[i]) && r[i].poLine < n
    ensures forall i, j :: 0 <= i < j < |r| ==> r[i].poLine < r[j].poLine
    ensures forall j :: 0 <= j < n && Lacks(poLines, po, j) ==> exists i :: 0 <= i < |r| && r[i].poLine == j
  {
    if n == 0 then [] else
      var rest := Outstanding(poLines, po, n - 1);
      if Lacks(poLines, po, n - 1)
      then
        var r := rest + [Receipts.ReceiveRequest(n - 1, poLines[n - 1].ordered - poLines[n - 1].received)];
        assert r[|rest|].poLine == n - 1;
        assert forall i :: 0 <= i < |rest| ==> r[i] == rest[i];
        r
      else rest
  }

  lemma {:induction false} RequestsPass(items: seq<Receipts.ReceiveRequest>, seen: set<nat>)
    requires forall i :: 0 <= i < |items| ==> items[i].quantity > 0 && items[i].poLine !in seen
    requires forall i, j :: 0 <= i < j < |items| ==> items[i].poLine != items[j].poLine
    ensures Receipts.RequestsOk(items, seen).Ok?
  {
    if items != [] {
      forall i | 0 <= i < |items[1..]| ensures items[1..][i] == items[i + 1] {}
      RequestsPass(items[1..], seen + {items[0].poLine});
    }
  }

  lemma {:induction false} LinesPass(poLines: seq<PoLine>, m: Master, po: nat, items: seq<Receipts.ReceiveRequest>)
    requires forall i :: 0 <= i < |items| ==> items[i].poLine < |poLines| && poLines[items[i].poLine].po == po
                                              && IsActive(m.materials, poLines[items[i].poLine].material)
    ensures Receipts.LinesOk(poLines, m, po, items).Ok?
  {
    if items != [] {
      forall i | 0 <= i < |items[1..]| ensures items[1..][i] == items[i + 1] {}
      LinesPass(poLines, m, po, items[1..]);
    }
  }

  // The posting loop adds to every line what its request brings, and nothing else.
  lemma {:induction false} ReceiveLinesAdd(balances: map<Key, Balance>, warehouse: int, receipt: nat,
          w: Receipts.Receiving, todo: seq<Receipts.ReceiveRequest>)
    requires forall i, j :: 0 <= i < j < |todo| ==> todo[i].poLine != todo[j].poLine
    requires forall i :: 0 <= i < |todo| ==> todo[i].poLine < |w.poLines|
    requires Receipts.ReceiveLines(balances, warehouse, receipt, w, todo).Ok?
    ensures var after := Receipts.ReceiveLines(balances, warehouse, receipt, w, todo).value.poLines;
      && |after| == |w.poLines|
      && (forall i :: 0 <= i < |todo| ==>
            var line := w.poLines[todo[i].poLine];
            after[todo[i].poLine] == line.(received := line.received + todo[i].quantity))
      && (forall j :: 0 <= j < |w.poLines| && (forall i :: 0 <= i < |todo| ==> todo[i].poLine != j) ==>
            after[j] == w.poLines[j])
    decreases |todo|
  {
    if todo != [] {
      var next := Receipts.ReceiveLine(balances, warehouse, receipt, w, todo[0]).value;
      var after := Receipts.ReceiveLines(balances, warehouse, receipt, w, todo).value.poLines;
      Receipts.ReceiveLineWrites(balances, warehouse, receipt, w, todo[0]);
      hide Receipts.ReceiveLine;
      forall i | 0 <= i < |todo[1..]| ensures todo[1..][i] == todo[i + 1] {}
      ReceiveLinesAdd(balances, warehouse, receipt, next, todo[1..]);
      assert after[todo[0].poLine] == next.poLines[todo[0].poLine];
      forall i | 1 <= i < |todo|
        ensures after[todo[i].poLine]
             == w.poLines[todo[i].poLine].(received := w.poLines[todo[i].poLine].received + todo[i].quantity)
      {
        assert todo[1..][i - 1] == todo[i];
      }
    }
  }

  // An order that can be received on still lacks something.
  lemma {:induction false} ReceivableLacks(db: Db, po: nat) returns (j: nat)
    requires OrdersFit(db.pos, db.poLines) && ReceiptRules.ReceiptsFit(db.pos, db.poLines, db.receipts, db.receiptLines)
    requires po < |db.pos| && Receipts.Receivable(db.pos[po].status)
    ensures Lacks(db.poLines, po, j)
  {
    assert ReceiptRules.PoStatusFits(db.pos[po].status, db.poLines, po) && OrderFits(db.pos, db.poLines, po);
    if db.pos[po].status == PoConfirmed {
      j :| 0 <= j < |db.poLines| && db.poLines[j].po == po;
      assert db.poLines[j] in db.poLines && PoLineFits(db.pos, db.poLines[j]);
    } else {
      var l :| l in db.poLines && l.po == po && l.received != l.ordered;
      j :| 0 <= j < |db.poLines| && db.poLines[j] == l;
      assert ReceiptRules.ReceivedFits(db.poLines, db.receipts, db.receiptLines, j);
    }
  }

  predicate MayDeliver(db: Db, m: Master, po: nat, warehouse: int) {
    && po < |db.pos| && Receipts.Receivable(db.pos[po].status) && IsActive(m.warehouses, warehouse)
    && forall j :: 0 <= j < |db.poLines| && db.poLines[j].po == po ==> IsActive(m.materials, db.poLines[j].material)
  }

  function Rest(db: Db, po: nat): seq<Receipts.ReceiveRequest> {
    Outstanding(db.poLines, po, |db.poLines|)
  }

  lemma {:induction false} RestInOrder(db: Db, po: nat)
    ensures Receipts.Ordered(Rest(db, po)) == Rest(db, po)
  {
    var goods, key := Rest(db, po), Receipts.ByPoLine();
    forall a, b | 0 <= a < b < |goods| ensures key(goods[a]) <= key(goods[b]) {}
    SortedStays(goods, key);
  }

  lemma {:induction false} RestFits(db: Db, m: Master, po: nat, warehouse: int)
    requires OrdersFit(db.pos, db.poLines) && ReceiptRules.ReceiptsFit(db.pos, db.poLines, db.receipts, db.receiptLines)
    requires MayDeliver(db, m, po, warehouse)
    ensures Receipts.Precheck(db, m, po, warehouse, Rest(db, po)).Ok?
    ensures StockLaws.AllFit(db.poLines, Rest(db, po))
  {
    var goods := Rest(db, po);
    var j := ReceivableLacks(db, po);
    RequestsPass(goods, {});
    LinesPass(db.poLines, m, po, goods);
  }

  lemma {:induction false} DeliveryPasses(db: Db, m: Master, po: nat, warehouse: int)
    requires Valid(db) && MayDeliver(db, m, po, warehouse)
    ensures Receipts.CreatedReceipt(db, m, po, warehouse, Rest(db, po)).Ok?
  {
    RestFits(db, m, po, warehouse);
    ValidIsStored(db);
    Acceptance.ReceiptPrecheckIs(db, m, po, warehouse, Rest(db, po));
    StockLaws.CreateReceiptSucceedsIff(db, m, po, warehouse, Rest(db, po));
  }

  predicate AllReceived(poLines: seq<PoLine>, po: nat) {
    forall j :: 0 <= j < |poLines| && poLines[j].po == po ==> poLines[j].received == poLines[j].ordered
  }

  lemma {:induction false} NothingLacks(db: Db, po: nat, poLines: seq<PoLine>)
    requires OrdersFit(db.pos, db.poLines) && ReceiptRules.ReceiptsFit(db.pos, db.poLines, db.receipts, db.receiptLines)
    requires |poLines| == |db.poLines|
    requires forall i :: 0 <= i < |Rest(db, po)| ==>
      var x := Rest(db, po)[i];
      poLines[x.poLine] == db.poLines[x.poLine].(received := db.poLines[x.poLine].received + x.quantity)
    requires forall j :: 0 <= j < |poLines| && (forall i :: 0 <= i < |Rest(db, po)| ==> Rest(db, po)[i].poLine != j) ==>
      poLines[j] == db.poLines[j]
    ensures AllReceived(poLines, po)
  {
    var goods := Rest(db, po);
    forall j | 0 <= j < |poLines| && poLines[j].po == po ensures poLines[j].received == poLines[j].ordered {
      assert ReceiptRules.ReceivedFits(db.poLines, db.receipts, db.receiptLines, j);
      if Lacks(db.poLines, po, j) {
        var i :| 0 <= i < |goods| && goods[i].poLine == j;
      } else {
        assert forall i :: 0 <= i < |goods| ==> goods[i].poLine != j;
      }
    }
  }

  // Receiving everything an order lacks always succeeds and completes it.
  lemma {:induction false} DeliveryCompletes(db: Db, m: Master, po: nat, warehouse: int)
    requires Valid(db) && MayDeliver(db, m, po, warehouse)
    ensures var r := Receipts.CreatedReceipt(db, m, po, warehouse, Rest(db, po));
      && r.Ok? && po < |r.value.pos| && r.value.pos[po].status == PoReceived && AllReceived(r.value.poLines, po)
      && r.value.prs == db.prs
  {
    DeliveryPasses(db, m, po, warehouse);
    var after := Receipts.CreatedReceipt(db, m, po, warehouse, Rest(db, po)).value;
    ReceiptRules.CreatedReceiptIs(db, m, po, warehouse, Rest(db, po), after);
    RestInOrder(db, po);
    RestArrives(db, after, po, warehouse);
  }

  lemma {:induction false} FullMeansReceived(poLines: seq<PoLine>, po: nat, j: nat)
    requires AllReceived(poLines, po) && j < |poLines| && poLines[j].po == po && poLines[j].received > 0
    ensures HasLines(poLines, po) && Receipts.StatusFor(poLines, po) == PoReceived
  {
    assert poLines[j] in poLines;
    forall l | l in poLines && l.po == po ensures l.received == l.ordered {
      var i :| 0 <= i < |poLines| && poLines[i] == l;
    }
  }

  // The order lines after a delivery of everything that was lacking.
  lemma {:induction false} RestReceives(db: Db, po: nat, warehouse: int, w: Receipts.Receiving)
    requires OrdersFit(db.pos, db.poLines) && ReceiptRules.ReceiptsFit(db.pos, db.poLines, db.receipts, db.receiptLines)
    requires po < |db.pos| && Receipts.Receivable(db.pos[po].status)
    requires Receipts.ReceiveLines(db.balances, warehouse, |db.receipts|,
                                   Receipts.Receiving(db.poLines, db.receiptLines, []), Rest(db, po)) == Ok(w)
    ensures AllReceived(w.poLines, po) && HasLines(w.poLines, po) && Receipts.StatusFor(w.poLines, po) == PoReceived
  {
    hide Receipts.ReceiveLines, Receipts.StatusFor, AllReceived, OrdersFit, HasLines;
    var goods := Rest(db, po);
    ReceiveLinesAdd(db.balances, warehouse, |db.receipts|, Receipts.Receiving(db.poLines, db.receiptLines, []), goods);
    NothingLacks(db, po, w.poLines);
    var j := ReceivableLacks(db, po);
    var i :| 0 <= i < |goods| && goods[i].poLine == j;
    assert ReceiptRules.ReceivedFits(db.poLines, db.receipts, db.receiptLines, j);
    FullMeansReceived(w.poLines, po, j);
  }

  lemma {:induction false} RestArrives(db: Db, after: Db, po: nat, warehouse: int)
    requires OrdersFit(db.pos, db.poLines) && ReceiptRules.ReceiptsFit(db.pos, db.poLines, db.receipts, db.receiptLines)
    requires ReceiptRules.IsReceipt(db, after, po, warehouse, Rest(db, po))
    ensures |after.pos| == |db.pos| && after.pos[po].status == PoReceived && AllReceived(after.poLines, po)
    ensures after.prs == db.prs
  {
    RestReceives(db, po, warehouse, Receipts.ReceiveGoods(db, warehouse, Rest(db, po)).value.w);
  }

  // ---------------------------------------------------------------------------------------------
  // Ordering what a requisition still lacks
  // ---------------------------------------------------------------------------------------------

  predicate Open(lines: map<nat, PrLine>, l: nat) {
    l in lines && lines[l].converted < lines[l].requested
  }

  function Left(lines: map<nat, PrLine>, l: nat): int {
    if Open(lines, l) then lines[l].requested - lines[l].converted else 0
  }

  // The order line that takes all that requisition line l has left.
  function ItemFor(lines: map<nat, PrLine>, l: nat): ItemRequest
    requires Open(lines, l)
  {
    ItemRequest(lines[l].material, Left(lines, l), lines[l].price, [SourceRequest(l, Left(lines, l))])
  }

  function Remainders(lines: map<nat, PrLine>, ids: seq<nat>): (items: seq<ItemRequest>)
    ensures forall x :: x in items ==> exists l :: l in ids && Open(lines, l) && x == ItemFor(lines, l)
    ensures forall l :: l in ids && Open(lines, l) ==> ItemFor(lines, l) in items
  {
    if ids == [] then []
    else if Open(lines, ids[0]) then [ItemFor(lines, ids[0])] + Remainders(lines, ids[1..])
    else Remainders(lines, ids[1..])
  }

  lemma {:induction false} RemaindersTake(lines: map<nat, PrLine>, ids: seq<nat>, l: nat)
    requires Requisitions.Distinct(ids)
    ensures Sum(AllSources(Remainders(lines, ids)), Taking(l)) == if l in ids then Left(lines, l) else 0
  {
    if ids != [] {
      forall i, j | 0 <= i < j < |ids[1..]| ensures ids[1..][i] != ids[1..][j] { assert ids[i + 1] != ids[j + 1]; }
      RemaindersTake(lines, ids[1..], l);
      assert ids[0] !in ids[1..];
      if Open(lines, ids[0]) {
        var items, rest := Remainders(lines, ids), Remainders(lines, ids[1..]);
        assert items[0] == ItemFor(lines, ids[0]) && items[1..] == rest;
        SumFront(AllSources(items), Taking(l));
        assert AllSources(items)[1..] == AllSources(rest);
      }
    }
  }

  lemma {:induction false} RemaindersPass(m: Master, lines: map<nat, PrLine>, ids: seq<nat>)
    requires forall l :: l in ids && l in lines ==> IsActive(m.materials, lines[l].material) && lines[l].price >= 0
    ensures ItemsOk(m, Remainders(lines, ids)).Ok?
  {
    if ids != [] {
      RemaindersPass(m, lines, ids[1..]);
      if Open(lines, ids[0]) {
        var items := Remainders(lines, ids);
        assert items[0] == ItemFor(lines, ids[0]) && items[1..] == Remainders(lines, ids[1..]);
        SumFront(items[0].sources, QuantityOf());
      }
    }
  }

  // Writing the order lines converts what all their sources take together.
  lemma {:induction false} WriteItemsConvert(po: nat, w: Writing, items: seq<ItemRequest>)
    requires SourcesExist(w.lines, items) && WriteItems(po, w, items).Ok?
    ensures forall x :: x in AllSources(items) ==> x.prLine in w.lines
    ensures Convert(w.lines, AllSources(items)) == Ok(WriteItems(po, w, items).value.lines)
    decreases |items|
  {
    AllSourcesExist(w.lines, items);
    if items != [] {
      hide Convert;
      ConvertConcat(w.lines, items[0].sources, AllSources(items[1..]));
      WriteItemsConvert(po, WriteItem(po, w, items[0]).value, items[1..]);
    }
  }

  predicate MayOrder(db: Db, m: Master, p: nat, supplier: int) {
    && p < |db.prs| && db.prs[p].status == PrApproved && IsActive(m.suppliers, supplier)
    && forall l :: l in db.prLines && db.prLines[l].pr == p ==> IsActive(m.materials, db.prLines[l].material)
  }

  function AllLeft(db: Db, p: nat): seq<ItemRequest>
    requires p < |db.prs|
  {
    Remainders(db.prLines, db.prs[p].items)
  }

  // The order draws on requisition p and on no other.
  lemma {:induction false} RemaindersTouch(lines: map<nat, PrLine>, ids: seq<nat>, p: nat, l: nat)
    requires forall i :: i in ids ==> i in lines && lines[i].pr == p
    requires l in ids && Open(lines, l)
    ensures Remainders(lines, ids) != [] && SourcesExist(lines, Remainders(lines, ids))
    ensures TouchedPrs(lines, Remainders(lines, ids)) == {p}
  {
    var items := Remainders(lines, ids);
    forall x | x in items
      ensures |x.sources| == 1 && x.sources[0].prLine in lines && lines[x.sources[0].prLine].pr == p
    {
      var i :| i in ids && Open(lines, i) && x == ItemFor(lines, i);
    }
    var x := ItemFor(lines, l);
    assert x in items && x.sources[0] in x.sources;
  }

  // An approved requisition has something left.
  lemma {:induction false} ApprovedHasLeft(db: Db, p: nat) returns (l: nat)
    requires LinesFit(db.prs, db.prLines, db.nextPrLine) && StatusesFit(db.prs, db.prLines)
    requires p < |db.prs| && db.prs[p].status == PrApproved
    ensures l in db.prs[p].items && Open(db.prLines, l)
    ensures forall i :: i in db.prs[p].items ==> i in db.prLines && db.prLines[i].pr == p && db.prLines[i].price >= 0
  {
    assert HeaderFits(db.prs, db.prLines, p) && StatusFits(db.prs[p].status, db.prLines, p);
    l :| l in db.prLines && db.prLines[l].pr == p && db.prLines[l].converted < db.prLines[l].requested;
    forall i | i in db.prs[p].items ensures db.prLines[i].price >= 0 { assert LineFits(db.prLines[i]); }
  }

  lemma {:induction false} OrderPrechecks(db: Db, m: Master, p: nat, supplier: int)
    requires LinesFit(db.prs, db.prLines, db.nextPrLine) && StatusesFit(db.prs, db.prLines)
    requires MayOrder(db, m, p, supplier)
    ensures Precheck(db, m, supplier, AllLeft(db, p)).Ok? && TouchedPrs(db.prLines, AllLeft(db, p)) == {p}
  {
    hide LinesFit, StatusesFit, Remainders, TouchedPrs, ItemsOk;
    var l := ApprovedHasLeft(db, p);
    RemaindersTouch(db.prLines, db.prs[p].items, p, l);
    RemaindersPass(m, db.prLines, db.prs[p].items);
  }

  lemma {:induction false} OrderSucceeds(db: Db, user: User, m: Master, p: nat, supplier: int)
    requires LinesFit(db.prs, db.prLines, db.nextPrLine) && StatusesFit(db.prs, db.prLines)
    requires MayOrder(db, m, p, supplier)
    ensures CreatedPo(db, user, m, supplier, AllLeft(db, p)).Ok?
  {
    var items := AllLeft(db, p);
    OrderPrechecks(db, m, p, supplier);
    assert HeaderFits(db.prs, db.prLines, p);
    forall l | l in db.prLines ensures Bears(db.prLines, AllSources(items), l) {
      RemaindersTake(db.prLines, db.prs[p].items, l);
    }
    forall i | 0 <= i < |items| ensures NoRepeats(items[i].sources) { assert items[i] in items; }
    Acceptance.OrderPrecheckIs(db, m, supplier, items);
    CreatePoSucceedsIff(db, user, m, supplier, items);
  }

  lemma {:induction false} LeftIsTaken(db: Db, p: nat)
    requires LinesFit(db.prs, db.prLines, db.nextPrLine) && p < |db.prs|
    ensures FullyConverted(ConvertedBy(db.prLines, AllSources(AllLeft(db, p))), p)
  {
    forall l | l in db.prLines && db.prLines[l].pr == p
      ensures db.prLines[l].converted + Sum(AllSources(AllLeft(db, p)), Taking(l)) >= db.prLines[l].requested
    {
      assert HeaderFits(db.prs, db.prLines, p) && LineFits(db.prLines[l]);
      RemaindersTake(db.prLines, db.prs[p].items, l);
    }
  }

  // Ordering everything an approved requisition has left always succeeds and completes the requisition.
  lemma {:induction false} OrderCompletes(db: Db, user: User, m: Master, p: nat, supplier: int)
    requires LinesFit(db.prs, db.prLines, db.nextPrLine) && StatusesFit(db.prs, db.prLines)
    requires MayOrder(db, m, p, supplier)
    ensures var r := CreatedPo(db, user, m, supplier, AllLeft(db, p));
            && r.Ok? && |r.value.prs| == |db.prs| && r.value.prs[p].status == PrConverted
            && FullyConverted(r.value.prLines, p)
  {
    OrderPrechecks(db, m, p, supplier);
    OrderSucceeds(db, user, m, p, supplier);
    WriteItemsConvert(|db.pos|, Writing(db.prLines, db.poLines, db.sources, 0), AllLeft(db, p));
    ConvertMeans(db.prLines, AllSources(AllLeft(db, p)));
    LeftIsTaken(db, p);
  }

  // ---------------------------------------------------------------------------------------------
  // From a payload to an approved requisition
  // ---------------------------------------------------------------------------------------------

  predicate Buyable(m: Master, line: PrLine) {
    IsActive(m.materials, line.material) && line.requested > 0 && line.price > 0
  }

  ghost predicate AllBuyable(m: Master, lines: map<nat, PrLine>, ids: seq<nat>) {
    forall l :: l in ids ==> l in lines && Buyable(m, lines[l])
  }

  predicate WellFormed(m: Master, reqs: seq<Requisitions.LineRequest>) {
    forall i :: 0 <= i < |reqs| ==>
      reqs[i].id.None? && IsActive(m.materials, reqs[i].material) && reqs[i].requested > 0 && reqs[i].price > 0
  }

  lemma {:induction false} SyncNew(m: Master, p: nat, st: Requisitions.Synced, reqs: seq<Requisitions.LineRequest>)
    requires WellFormed(m, reqs) && AllBuyable(m, st.lines, st.added)
    requires forall l :: l in st.added ==> l < st.next
    ensures var r := Requisitions.SyncLines(m, p, [], st, reqs);
      r.Ok? && |r.value.added| == |st.added| + |reqs| && AllBuyable(m, r.value.lines, r.value.added)
    decreases |reqs|
  {
    if reqs != [] {
      assert forall i :: 0 <= i < |reqs[1..]| ==> reqs[1..][i] == reqs[i + 1];
      SyncNew(m, p, Requisitions.SyncLine(m, p, [], st, reqs[0]).value, reqs[1..]);
    }
  }

  lemma {:induction false} NewEditPasses(m: Master, lines: map<nat, PrLine>, next: nat, p: nat,
                                         reqs: seq<Requisitions.LineRequest>)
    requires forall l :: l in lines ==> l < next
    requires WellFormed(m, reqs)
    ensures var e := Requisitions.Edited(m, lines, next, p, [], reqs);
      e.Ok? && |e.value.items| == |reqs| && AllBuyable(m, e.value.lines, e.value.items)
  {
    var start := Requisitions.Synced(lines, next, [], {});
    SyncNew(m, p, start, reqs);
    var st := Requisitions.SyncLines(m, p, [], start, reqs).value;
    var none: seq<nat> := [];
    assert Requisitions.ItemsAfter(none, st) == st.added;
    assert Requisitions.LinesAfter(none, st) == st.lines;
  }

  lemma {:induction false} MaterialsPass(m: Master, lines: map<nat, PrLine>, items: seq<nat>)
    requires AllBuyable(m, lines, items)
    ensures Requisitions.MaterialsOk(m, lines, items).Ok? && Requisitions.LinesStillOk(m, lines, items).Ok?
  {
    if items != [] { MaterialsPass(m, lines, items[1..]); }
  }

  // Requisition p, in the given status, with lines that can be bought.
  ghost predicate Stands(db: Db, m: Master, p: nat, status: PrStatus, version: nat, department: int) {
    && p < |db.prs| && db.prs[p].status == status && db.prs[p].version == version && db.prs[p].department == department
    && db.prs[p].items != [] && AllBuyable(m, db.prLines, db.prs[p].items)
  }

  lemma {:induction false} PrCreates(db: Db, user: User, m: Master, reqs: seq<Requisitions.LineRequest>)
    requires RequisitionKeys(db.prs, db.prLines, db.nextPrLine)
    requires user.department.Some? && IsActive(m.departments, user.department.value) && reqs != []
    requires WellFormed(m, reqs)
    ensures var r := Requisitions.CreatedPr(db, user, m, reqs);
            && r.Ok? && Stands(r.value, m, |db.prs|, PrDraft, 1, user.department.value)
            && r.value.prs[|db.prs|].applicant == user.id
    ensures Requisitions.CreatedPr(db, user, m, reqs).value.pos == db.pos
  {
    assert Requisitions.AsNew(reqs) == reqs;
    NewEditPasses(m, db.prLines, db.nextPrLine, |db.prs|, reqs);
  }

  lemma {:induction false} PrSubmits(db: Db, user: User, m: Master, p: nat, department: int)
    requires p < |db.prs| && Documented(db, p)
    requires Stands(db, m, p, PrDraft, 1, department) && db.prs[p].applicant == user.id
    ensures var r := Requisitions.SubmittedPr(db, user, m, p);
            r.Ok? && Stands(r.value, m, p, PrPending, 2, department) && r.value.pos == db.pos
  {
    MaterialsPass(m, db.prLines, db.prs[p].items);
  }

  lemma {:induction false} PrApproves(db: Db, user: User, m: Master, p: nat, department: int)
    requires p < |db.prs| && Documented(db, p)
    requires Stands(db, m, p, PrPending, 2, department) && Requisitions.MayDecide(department, user, m)
    ensures var r := Requisitions.ApprovedPr(db, user, m, p, 2);
            r.Ok? && Stands(r.value, m, p, PrApproved, 3, department) && r.value.pos == db.pos
  {
    MaterialsPass(m, db.prLines, db.prs[p].items);
  }

  // ---------------------------------------------------------------------------------------------
  // From an order to its confirmation
  // ---------------------------------------------------------------------------------------------

  predicate Deliverable(m: Master, l: PoLine) {
    IsActive(m.materials, l.material) && l.price > 0
  }

  lemma {:induction false} WriteItemsDeliverable(m: Master, po: nat, w: Writing, items: seq<ItemRequest>)
    requires SourcesExist(w.lines, items) && WriteItems(po, w, items).Ok?
    requires forall i :: i in items ==> IsActive(m.materials, i.material) && i.price > 0
    requires forall j :: 0 <= j < |w.poLines| && w.poLines[j].po == po ==> Deliverable(m, w.poLines[j])
    ensures var after := WriteItems(po, w, items).value.poLines;
            forall j :: 0 <= j < |after| && after[j].po == po ==> Deliverable(m, after[j])
    decreases |items|
  {
    if items != [] { WriteItemsDeliverable(m, po, WriteItem(po, w, items[0]).value, items[1..]); }
  }

  lemma {:induction false} RemaindersBuyable(m: Master, lines: map<nat, PrLine>, ids: seq<nat>)
    requires AllBuyable(m, lines, ids)
    ensures forall i :: i in Remainders(lines, ids) ==> IsActive(m.materials, i.material) && i.price > 0
  {
    forall i | i in Remainders(lines, ids) ensures IsActive(m.materials, i.material) && i.price > 0 {
      var l :| l in ids && Open(lines, l) && i == ItemFor(lines, l);
    }
  }

  predicate AllDeliverable(m: Master, poLines: seq<PoLine>, po: nat) {
    forall j :: 0 <= j < |poLines| && poLines[j].po == po ==> Deliverable(m, poLines[j])
  }

  // The order for everything requisition p has left, by this buyer.
  lemma {:induction false} OrderStands(db: Db, user: User, m: Master, p: nat, supplier: int, department: int)
    requires LinesFit(db.prs, db.prLines, db.nextPrLine) && StatusesFit(db.prs, db.prLines)
    requires Stands(db, m, p, PrApproved, 3, department) && IsActive(m.suppliers, supplier)
    requires forall j :: 0 <= j < |db.poLines| ==> PoLineFits(db.pos, db.poLines[j])
    ensures var r := CreatedPo(db, user, m, supplier, AllLeft(db, p));
      && r.Ok? && |r.value.prs| == |db.prs| && r.value.prs[p].status == PrConverted
      && |r.value.pos| == |db.pos| + 1 && r.value.pos[|db.pos|].(total := 0) == Po(user.id, PoDraft, 0, 1)
      && AllDeliverable(m, r.value.poLines, |db.pos|)
  {
    OrderCompletes(db, user, m, p, supplier);
    RemaindersBuyable(m, db.prLines, db.prs[p].items);
    WriteItemsDeliverable(m, |db.pos|, Writing(db.prLines, db.poLines, db.sources, 0), AllLeft(db, p));
  }

  lemma {:induction false} OrderConfirms(db: Db, user: User, m: Master, po: nat)
    requires po < |db.pos| && OrderFits(db.pos, db.poLines, po)
    requires db.pos[po].(total := 0) == Po(user.id, PoDraft, 0, 1) && AllDeliverable(m, db.poLines, po)
    ensures var r := ConfirmedPo(db, user, po, 1);
      && r.Ok? && r.value.prs == db.prs && r.value.poLines == db.poLines
      && |r.value.pos| == |db.pos| && r.value.pos[po].status == PoConfirmed
  {
    forall l | l in db.poLines && l.po == po ensures l.price > 0 {
      var j :| 0 <= j < |db.poLines| && db.poLines[j] == l;
    }
  }

  // ---------------------------------------------------------------------------------------------
  // The whole way
  // ---------------------------------------------------------------------------------------------

  // Who buys what, where from and where to: an applicant in an active department, an approver for it, active master
  // data.
  datatype Purchase = Purchase(applicant: User, approver: User, buyer: User, m: Master,
                               lines: seq<Requisitions.LineRequest>, supplier: int, warehouse: int)

  predicate WellStaffed(x: Purchase) {
    && x.applicant.department.Some? && Requisitions.MayDecide(x.applicant.department.value, x.approver, x.m)
    && x.lines != [] && WellFormed(x.m, x.lines) && IsActive(x.m.suppliers, x.supplier)
    && IsActive(x.m.warehouses, x.warehouse)
  }

  // The tables after each of the six calls.
  datatype Course = Course(created: Db, submitted: Db, approved: Db, ordered: Db, confirmed: Db, delivered: Db)

  ghost predicate Keyed(db: Db) {
    RequisitionKeys(db.prs, db.prLines, db.nextPrLine)
  }

  // Requisition p is created, submitted and approved, every call succeeding.
  ghost predicate GetsApproved(db: Db, x: Purchase, p: nat, c: Course) {
    && Keyed(db) && Requisitions.CreatedPr(db, x.applicant, x.m, x.lines) == Ok(c.created)
    && Keyed(c.created) && Requisitions.SubmittedPr(c.created, x.applicant, x.m, p) == Ok(c.submitted)
    && Keyed(c.submitted) && Requisitions.ApprovedPr(c.submitted, x.approver, x.m, p, 2) == Ok(c.approved)
  }

  // Order po for all that p has left is created, confirmed and received, every call succeeding.
  ghost predicate GetsDelivered(x: Purchase, p: nat, po: nat, c: Course) {
    && p < |c.approved.prs| && CreatedPo(c.approved, x.buyer, x.m, x.supplier, AllLeft(c.approved, p)) == Ok(c.ordered)
    && ConfirmedPo(c.ordered, x.buyer, po, 1) == Ok(c.confirmed)
    && Receipts.CreatedReceipt(c.confirmed, x.m, po, x.warehouse, Rest(c.confirmed, po)) == Ok(c.delivered)
  }

  // Requisition p is fully ordered and order po fully delivered.
  predicate Completed(db: Db, p: nat, po: nat) {
    && p < |db.prs| && db.prs[p].status == PrConverted
    && po < |db.pos| && db.pos[po].status == PoReceived && AllReceived(db.poLines, po)
  }

  lemma {:induction false} CreationGoes(db: Db, x: Purchase) returns (after: Db)
    requires Valid(db) && WellStaffed(x)
    ensures Keyed(db) && Requisitions.CreatedPr(db, x.applicant, x.m, x.lines) == Ok(after) && Valid(after)
    ensures Stands(after, x.m, |db.prs|, PrDraft, 1, x.applicant.department.value)
    ensures after.prs[|db.prs|].applicant == x.applicant.id
    ensures after.pos == db.pos
  {
    LinesFitKeys(db.prs, db.prLines, db.nextPrLine);
    PrCreates(db, x.applicant, x.m, x.lines);
    after := Requisitions.CreatedPr(db, x.applicant, x.m, x.lines).value;
    CreatedPrSteps(db, x.applicant, x.m, x.lines, after);
    RequisitionStepKeepsValid(db, after);
  }

  lemma {:induction false} SubmissionGoes(db: Db, x: Purchase, p: nat, department: int) returns (after: Db)
    requires Valid(db) && Stands(db, x.m, p, PrDraft, 1, department) && db.prs[p].applicant == x.applicant.id
    ensures Keyed(db) && Requisitions.SubmittedPr(db, x.applicant, x.m, p) == Ok(after) && Valid(after)
    ensures Stands(after, x.m, p, PrPending, 2, department) && after.pos == db.pos
  {
    ValidIsDocumented(db, p);
    PrSubmits(db, x.applicant, x.m, p, department);
    after := Requisitions.SubmittedPr(db, x.applicant, x.m, p).value;
    SubmittedPrSteps(db, x.applicant, x.m, p, after);
    RequisitionStepKeepsValid(db, after);
  }

  lemma {:induction false} ApprovalGoes(db: Db, x: Purchase, p: nat, department: int) returns (after: Db)
    requires Valid(db) && Stands(db, x.m, p, PrPending, 2, department)
    requires Requisitions.MayDecide(department, x.approver, x.m)
    ensures Keyed(db) && Requisitions.ApprovedPr(db, x.approver, x.m, p, 2) == Ok(after) && Valid(after)
    ensures Stands(after, x.m, p, PrApproved, 3, department) && after.pos == db.pos
  {
    ValidIsDocumented(db, p);
    PrApproves(db, x.approver, x.m, p, department);
    after := Requisitions.ApprovedPr(db, x.approver, x.m, p, 2).value;
    ApprovedPrSteps(db, x.approver, x.m, p, 2, after);
    RequisitionStepKeepsValid(db, after);
  }

  predicate IsDraftOf(db: Db, po: nat, buyer: User) {
    po < |db.pos| && db.pos[po].(total := 0) == Po(buyer.id, PoDraft, 0, 1)
  }

  predicate IsConverted(db: Db, p: nat) {
    p < |db.prs| && db.prs[p].status == PrConverted
  }

  lemma {:induction false} OrderingGoes(db: Db, x: Purchase, p: nat, department: int) returns (after: Db)
    requires Valid(db) && Stands(db, x.m, p, PrApproved, 3, department) && IsActive(x.m.suppliers, x.supplier)
    ensures CreatedPo(db, x.buyer, x.m, x.supplier, AllLeft(db, p)) == Ok(after) && Valid(after)
    ensures IsConverted(after, p) && IsDraftOf(after, |db.pos|, x.buyer) && AllDeliverable(x.m, after.poLines, |db.pos|)
  {
    OrderStands(db, x.buyer, x.m, p, x.supplier, department);
    after := CreatedPo(db, x.buyer, x.m, x.supplier, AllLeft(db, p)).value;
    CreatedPoKeepsValid(db, x.buyer, x.m, x.supplier, AllLeft(db, p), after);
  }

  lemma {:induction false} ConfirmationGoes(db: Db, x: Purchase, p: nat, po: nat) returns (after: Db)
    requires Valid(db) && IsConverted(db, p) && IsDraftOf(db, po, x.buyer) && AllDeliverable(x.m, db.poLines, po)
    ensures ConfirmedPo(db, x.buyer, po, 1) == Ok(after) && Valid(after)
    ensures IsConverted(after, p) && AllDeliverable(x.m, after.poLines, po)
    ensures po < |after.pos| && after.pos[po].status == PoConfirmed
  {
    OrderConfirms(db, x.buyer, x.m, po);
    after := ConfirmedPo(db, x.buyer, po, 1).value;
    ConfirmedPoKeepsValid(db, x.buyer, po, 1, after);
  }

  lemma {:induction false} ApprovalInThree(db: Db, x: Purchase) returns (c: Course)
    requires Valid(db) && WellStaffed(x)
    ensures GetsApproved(db, x, |db.prs|, c) && Valid(c.approved) && c.approved.pos == db.pos
    ensures Stands(c.approved, x.m, |db.prs|, PrApproved, 3, x.applicant.department.value)
  {
    var created := CreationGoes(db, x);
    var submitted := SubmissionGoes(created, x, |db.prs|, x.applicant.department.value);
    var approved := ApprovalGoes(submitted, x, |db.prs|, x.applicant.department.value);
    c := Course(created, submitted, approved, db, db, db);
  }

  lemma {:induction false} DeliveryInThree(c: Course, x: Purchase, p: nat, department: int) returns (d: Course)
    requires Valid(c.approved) && Stands(c.approved, x.m, p, PrApproved, 3, department)
    requires IsActive(x.m.suppliers, x.supplier) && IsActive(x.m.warehouses, x.warehouse)
    ensures d == c.(ordered := d.ordered, confirmed := d.confirmed, delivered := d.delivered)
    ensures GetsDelivered(x, p, |c.approved.pos|, d) && Completed(d.delivered, p, |c.approved.pos|)
  {
    var po := |c.approved.pos|;
    var ordered := OrderingGoes(c.approved, x, p, department);
    var confirmed := ConfirmationGoes(ordered, x, p, po);
    DeliveryCompletes(confirmed, x.m, po, x.warehouse);
    d := c.(ordered := ordered, confirmed := confirmed,
            delivered := Receipts.CreatedReceipt(confirmed, x.m, po, x.warehouse, Rest(confirmed, po)).value);
  }

  // From every reachable state, every well-formed purchase can be carried from its requisition to its last delivery:
  // all six calls succeed, and they leave the requisition converted and the order received in full.
  lemma {:induction false} EveryPurchaseCompletes(db: Db, x: Purchase) returns (c: Course)
    requires Valid(db) && WellStaffed(x)
    ensures GetsApproved(db, x, |db.prs|, c) && GetsDelivered(x, |db.prs|, |db.pos|, c)
    ensures Completed(c.delivered, |db.prs|, |db.pos|)
  {
    var approved := ApprovalInThree(db, x);
    c := DeliveryInThree(approved, x, |db.prs|, x.applicant.department.value);
  }
}
