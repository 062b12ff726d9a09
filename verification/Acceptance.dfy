/** What orders and receipts are checked for before anything is written, as conditions on the payload and the tables. */
module Acceptance {
  import opened Sums
  import opened Tables
  import Orders
  import Receipts

  // ---------------------------------------------------------------------------------------------
  // Orders
  // ---------------------------------------------------------------------------------------------

  function AskedIn(): Orders.SourceRequest -> int {
    (x: Orders.SourceRequest) => x.quantity
  }

  // One order line: an active material, a positive quantity that its sources add up to, a price that is not negative.
  predicate WellAskedLine(m: Master, item: Orders.ItemRequest) {
    && IsActive(m.materials, item.material) && item.ordered > 0 && item.price >= 0
    && Sum(item.sources, AskedIn()) == item.ordered
  }

  predicate Asks(items: seq<Orders.ItemRequest>, l: nat) {
    exists i, k :: 0 <= i < |items| && 0 <= k < |items[i].sources| && items[i].sources[k].prLine == l
  }

  // A source is a line of an approved requisition.
  predicate FromApproved(db: Db, l: nat) {
    l in db.prLines && db.prLines[l].pr < |db.prs| && db.prs[db.prLines[l].pr].status == PrApproved
  }

  ghost predicate WellAsked(db: Db, m: Master, supplier: int, items: seq<Orders.ItemRequest>) {
    && items != [] && IsActive(m.suppliers, supplier)
    && (forall l: nat :: Asks(items, l) ==> FromApproved(db, l))
    && (forall i :: 0 <= i < |items| ==> WellAskedLine(m, items[i]))
  }

  // Why a single order line is refused.
  predicate LineRefusal(m: Master, item: Orders.ItemRequest, e: ErrorCode) {
    if item.material !in m.materials then e == PoItemNotFound
    else if !m.materials[item.material] then e == MasterDataDisabled
    else if item.ordered <= 0 || item.price < 0 then e == ValidationError
    else Sum(item.sources, AskedIn()) != item.ordered && e == PoSourceQuantityMismatch
  }

  predicate FirstLineRefusal(m: Master, items: seq<Orders.ItemRequest>, e: ErrorCode) {
    exists i :: 0 <= i < |items| && LineRefusal(m, items[i], e) && forall j :: 0 <= j < i ==> WellAskedLine(m, items[j])
  }

  ghost predicate AskRefusal(db: Db, m: Master, supplier: int, items: seq<Orders.ItemRequest>, e: ErrorCode) {
    if items == [] then e == PoEmptyItems
    else if supplier !in m.suppliers then e == NotFound
    else if !m.suppliers[supplier] then e == PoSupplierDisabled
    else if exists l: nat :: Asks(items, l) && l !in db.prLines then e == PrItemNotFound
    else if exists l: nat :: Asks(items, l) && !FromApproved(db, l) then e == PrInvalidStatusTransition
    else FirstLineRefusal(m, items, e)
  }

  lemma {:induction false} RefusedLater(m: Master, items: seq<Orders.ItemRequest>, e: ErrorCode)
    requires items != [] && WellAskedLine(m, items[0]) && FirstLineRefusal(m, items[1..], e)
    ensures FirstLineRefusal(m, items, e)
  {
    hide WellAskedLine, LineRefusal;
    var rest := items[1..];
    var i :| 0 <= i < |rest| && LineRefusal(m, rest[i], e) && forall j :: 0 <= j < i ==> WellAskedLine(m, rest[j]);
    assert items[i + 1] == rest[i];
    forall j | 0 <= j < i + 1 ensures WellAskedLine(m, items[j]) { if j > 0 { assert items[j] == rest[j - 1]; } }
  }

  lemma {:induction false} ItemsOkIs(m: Master, items: seq<Orders.ItemRequest>)
    ensures Orders.ItemsOk(m, items).Ok? <==> forall i :: 0 <= i < |items| ==> WellAskedLine(m, items[i])
    ensures Orders.ItemsOk(m, items).Err? ==> FirstLineRefusal(m, items, Orders.ItemsOk(m, items).error)
  {
    if items != [] {
      SumEqual(items[0].sources, Orders.QuantityOf(), AskedIn());
      ItemsOkIs(m, items[1..]);
      forall i | 0 < i < |items| ensures items[i] == items[1..][i - 1] {}
      if WellAskedLine(m, items[0]) {
        if Orders.ItemsOk(m, items).Err? { RefusedLater(m, items, Orders.ItemsOk(m, items).error); }
      } else {
        assert Orders.ItemsOk(m, items).Err? && LineRefusal(m, items[0], Orders.ItemsOk(m, items).error);
      }
    }
  }

  lemma {:induction false} SourcesExistIs(db: Db, items: seq<Orders.ItemRequest>)
    ensures Orders.SourcesExist(db.prLines, items) <==> forall l: nat :: Asks(items, l) ==> l in db.prLines
  {
    if forall l: nat :: Asks(items, l) ==> l in db.prLines {
      forall item, x | item in items && x in item.sources ensures x.prLine in db.prLines {
        var i :| 0 <= i < |items| && items[i] == item;
        var k :| 0 <= k < |item.sources| && item.sources[k] == x;
        assert Asks(items, x.prLine);
      }
    }
    if Orders.SourcesExist(db.prLines, items) {
      forall l: nat | Asks(items, l) ensures l in db.prLines {
        var i, k :| 0 <= i < |items| && 0 <= k < |items[i].sources| && items[i].sources[k].prLine == l;
        assert items[i] in items && items[i].sources[k] in items[i].sources;
      }
    }
  }

  lemma {:induction false} TouchedAre(db: Db, items: seq<Orders.ItemRequest>)
    requires Orders.SourcesExist(db.prLines, items)
    ensures (exists p :: p in Orders.TouchedPrs(db.prLines, items) && (p >= |db.prs| || db.prs[p].status != PrApproved))
       <==> exists l: nat :: Asks(items, l) && !FromApproved(db, l)
  {
    SourcesExistIs(db, items);
    var touched := Orders.TouchedPrs(db.prLines, items);
    if p :| p in touched && (p >= |db.prs| || db.prs[p].status != PrApproved) {
      var item, x :| item in items && x in item.sources && db.prLines[x.prLine].pr == p;
      var i :| 0 <= i < |items| && items[i] == item;
      var k :| 0 <= k < |item.sources| && item.sources[k] == x;
      assert Asks(items, x.prLine) && !FromApproved(db, x.prLine);
    }
    if l: nat :| Asks(items, l) && !FromApproved(db, l) {
      var i, k :| 0 <= i < |items| && 0 <= k < |items[i].sources| && items[i].sources[k].prLine == l;
      assert items[i] in items && items[i].sources[k] in items[i].sources;
      assert db.prLines[l].pr in touched;
    }
  }

  // The prechecks of create_po pass exactly on a payload that is well asked; the first check that fails decides the
  // error.
  lemma {:induction false} OrderPrecheckIs(db: Db, m: Master, supplier: int, items: seq<Orders.ItemRequest>)
    ensures Orders.Precheck(db, m, supplier, items).Ok? <==> WellAsked(db, m, supplier, items)
    ensures Orders.Precheck(db, m, supplier, items).Err? ==>
      AskRefusal(db, m, supplier, items, Orders.Precheck(db, m, supplier, items).error)
  {
    hide Asks, FromApproved, WellAskedLine, FirstLineRefusal, Orders.ItemsOk, Orders.SourcesExist, Orders.TouchedPrs;
    ItemsOkIs(m, items);
    SourcesExistIs(db, items);
    if Orders.SourcesExist(db.prLines, items) {
      TouchedAre(db, items);
      forall l: nat | Asks(items, l) ensures l in db.prLines {}
    } else {
      var l: nat :| Asks(items, l) && l !in db.prLines;
      ApprovedExists(db, l);
    }
  }

  lemma {:induction false} ApprovedExists(db: Db, l: nat)
    ensures FromApproved(db, l) ==> l in db.prLines
  {
  }

  // ---------------------------------------------------------------------------------------------
  // Receipts
  // ---------------------------------------------------------------------------------------------

  predicate AllDifferent(items: seq<Receipts.ReceiveRequest>) {
    forall i, j :: 0 <= i < j < |items| ==> items[i].poLine != items[j].poLine
  }

  // One received line: a line of the order, of a material that is still active.
  predicate WellReceivedLine(poLines: seq<PoLine>, m: Master, po: nat, item: Receipts.ReceiveRequest) {
    && item.poLine < |poLines| && poLines[item.poLine].po == po
    && IsActive(m.materials, poLines[item.poLine].material)
  }

  predicate TakesGoods(db: Db, po: nat) {
    po < |db.pos| && (db.pos[po].status == PoConfirmed || db.pos[po].status == PoPartiallyReceived)
  }

  predicate WellDelivered(db: Db, m: Master, po: nat, warehouse: int, items: seq<Receipts.ReceiveRequest>) {
    && items != [] && TakesGoods(db, po) && IsActive(m.warehouses, warehouse) && AllDifferent(items)
    && (forall i :: 0 <= i < |items| ==> items[i].quantity > 0)
    && (forall i :: 0 <= i < |items| ==> WellReceivedLine(db.poLines, m, po, items[i]))
  }

  // The first request that repeats a line or is not positive.
  predicate FirstBadRequest(items: seq<Receipts.ReceiveRequest>, e: ErrorCode) {
    exists i :: 0 <= i < |items| && AllDifferent(items[..i]) && (forall j :: 0 <= j < i ==> items[j].quantity > 0)
      && if exists j :: 0 <= j < i && items[j].poLine == items[i].poLine then e == ReceiptDuplicateItem
         else items[i].quantity <= 0 && e == ReceiptQuantityPositive
  }

  predicate ReceivedLineRefusal(poLines: seq<PoLine>, m: Master, po: nat, item: Receipts.ReceiveRequest, e: ErrorCode) {
    if item.poLine >= |poLines| then e == PoItemNotFound
    else if poLines[item.poLine].po != po then e == ReceiptItemNotInPo
    else if poLines[item.poLine].material !in m.materials then e == NotFound
    else !m.materials[poLines[item.poLine].material] && e == MasterDataDisabled
  }

  predicate FirstReceivedLineRefusal(poLines: seq<PoLine>, m: Master, po: nat, items: seq<Receipts.ReceiveRequest>,
          e: ErrorCode) {
    exists i :: 0 <= i < |items| && ReceivedLineRefusal(poLines, m, po, items[i], e) && forall j :: 0 <= j < i ==>
      WellReceivedLine(poLines, m, po, items[j])
  }

  predicate DeliveryRefusal(db: Db, m: Master, po: nat, warehouse: int, items: seq<Receipts.ReceiveRequest>,
          e: ErrorCode) {
    if items == [] then e == ReceiptEmptyItems
    else if po >= |db.pos| then e == PoNotFound
    else if !TakesGoods(db, po) then e == PoNotReceivable
    else if warehouse !in m.warehouses then e == NotFound
    else if !m.warehouses[warehouse] then e == MasterDataDisabled
    else if !AllDifferent(items) || exists i :: 0 <= i < |items| && items[i].quantity <= 0
    then FirstBadRequest(items, e)
    else FirstReceivedLineRefusal(db.poLines, m, po, items, e)
  }

  lemma {:induction false} ReceivedRefusedLater(poLines: seq<PoLine>, m: Master, po: nat,
          items: seq<Receipts.ReceiveRequest>, e: ErrorCode)
    requires items != [] && WellReceivedLine(poLines, m, po, items[0])
    requires FirstReceivedLineRefusal(poLines, m, po, items[1..], e)
    ensures FirstReceivedLineRefusal(poLines, m, po, items, e)
  {
    hide WellReceivedLine, ReceivedLineRefusal;
    var rest := items[1..];
    var i :| 0 <= i < |rest| && ReceivedLineRefusal(poLines, m, po, rest[i], e) && forall j :: 0 <= j < i ==>
      WellReceivedLine(poLines, m, po, rest[j]);
    assert items[i + 1] == rest[i];
    forall j | 0 <= j < i + 1 ensures WellReceivedLine(poLines, m, po, items[j]) {
      if j > 0 { assert items[j] == rest[j - 1]; }
    }
  }

  lemma {:induction false} LinesOkIs(poLines: seq<PoLine>, m: Master, po: nat, items: seq<Receipts.ReceiveRequest>)
    ensures Receipts.LinesOk(poLines, m, po, items).Ok? <==>
      forall i :: 0 <= i < |items| ==> WellReceivedLine(poLines, m, po, items[i])
    ensures Receipts.LinesOk(poLines, m, po, items).Err? ==>
      FirstReceivedLineRefusal(poLines, m, po, items, Receipts.LinesOk(poLines, m, po, items).error)
  {
    if items != [] {
      LinesOkIs(poLines, m, po, items[1..]);
      forall i | 0 < i < |items| ensures items[i] == items[1..][i - 1] {}
      if WellReceivedLine(poLines, m, po, items[0]) {
        if Receipts.LinesOk(poLines, m, po, items).Err? {
          ReceivedRefusedLater(poLines, m, po, items, Receipts.LinesOk(poLines, m, po, items).error);
        }
      } else {
        var r := Receipts.LinesOk(poLines, m, po, items);
        assert r.Err? && ReceivedLineRefusal(poLines, m, po, items[0], r.error);
      }
    }
  }

  // The checks on items[n..], with the order lines of items[..n] seen.
  lemma {:induction false} RequestsOkIs(items: seq<Receipts.ReceiveRequest>, n: nat, seen: set<nat>)
    requires n <= |items| && AllDifferent(items[..n]) && forall j :: 0 <= j < n ==> items[j].quantity > 0
    requires forall l :: l in seen <==> exists j :: 0 <= j < n && items[j].poLine == l
    ensures Receipts.RequestsOk(items[n..], seen).Ok? <==>
      AllDifferent(items) && forall i :: 0 <= i < |items| ==> items[i].quantity > 0
    ensures Receipts.RequestsOk(items[n..], seen).Err? ==>
      FirstBadRequest(items, Receipts.RequestsOk(items[n..], seen).error)
    decreases |items| - n
  {
    if n == |items| {
      assert items[..n] == items;
    } else {
      var x := items[n];
      assert items[n..][0] == x && items[n..][1..] == items[n + 1..];
      if x.poLine !in seen && x.quantity > 0 {
        RequestsOkIs(items, n + 1, seen + {x.poLine});
      }
    }
  }

  // The prechecks of create_receipt pass exactly on a well delivered payload; the first check that fails decides the
  // error.
  lemma {:induction false} ReceiptPrecheckIs(db: Db, m: Master, po: nat, warehouse: int,
          items: seq<Receipts.ReceiveRequest>)
    ensures Receipts.Precheck(db, m, po, warehouse, items).Ok? <==> WellDelivered(db, m, po, warehouse, items)
    ensures Receipts.Precheck(db, m, po, warehouse, items).Err? ==>
      DeliveryRefusal(db, m, po, warehouse, items, Receipts.Precheck(db, m, po, warehouse, items).error)
  {
    hide AllDifferent, WellReceivedLine, FirstBadRequest, FirstReceivedLineRefusal, Receipts.RequestsOk,
         Receipts.LinesOk;
    LinesOkIs(db.poLines, m, po, items);
    NothingSeen(items);
  }

  lemma {:induction false} NothingSeen(items: seq<Receipts.ReceiveRequest>)
    ensures Receipts.RequestsOk(items, {}).Ok? <==>
      AllDifferent(items) && forall i :: 0 <= i < |items| ==> items[i].quantity > 0
    ensures Receipts.RequestsOk(items, {}).Err? ==> FirstBadRequest(items, Receipts.RequestsOk(items, {}).error)
  {
    assert items[0..] == items;
    RequestsOkIs(items, 0, {});
  }
}
