/** The quantity chain in every reachable state: when conversion succeeds, and what cancelling undoes. */
module ChainLaws {
  import opened Sums
  import opened Tables
  import opened Acceptance
  import opened Orders
  import opened OrderRules
  import opened RequisitionRules
  import opened Validity
  import Requisitions
  import ReceiptRules

  // ---------------------------------------------------------------------------------------------
  // When an order can be created
  // ---------------------------------------------------------------------------------------------

  function AllSources(items: seq<ItemRequest>): seq<SourceRequest> {
    if items == [] then [] else items[0].sources + AllSources(items[1..])
  }

  lemma {:induction false} AllSourcesExist(lines: map<nat, PrLine>, items: seq<ItemRequest>)
    requires SourcesExist(lines, items)
    ensures forall x :: x in AllSources(items) ==> x.prLine in lines
  {
    if items != [] { AllSourcesExist(lines, items[1..]); }
  }

  lemma {:induction false} ConvertConcat(lines: map<nat, PrLine>, a: seq<SourceRequest>, b: seq<SourceRequest>)
    requires forall x :: x in a || x in b ==> x.prLine in lines
    ensures Convert(lines, a).Ok? ==> Convert(lines, a).value.Keys == lines.Keys
    ensures Convert(lines, a + b) == match Convert(lines, a) case Ok(next) => Convert(next, b) case Err(e) => Err(e)
  {
    ConvertKeepsKeys(lines, a);
    if a == [] {
      assert a + b == b;
    } else {
      var x, line := a[0], lines[a[0].prLine];
      assert (a + b)[0] == x && (a + b)[1..] == a[1..] + b;
      if line.converted + x.quantity <= line.requested {
        ConvertConcat(lines[x.prLine := line.(converted := line.converted + x.quantity)], a[1..], b);
      }
    }
  }

  predicate NothingRepeats(items: seq<ItemRequest>) {
    forall i :: 0 <= i < |items| ==> NoRepeats(items[i].sources)
  }

  lemma {:induction false} RepeatsFront(items: seq<ItemRequest>)
    requires items != []
    ensures NothingRepeats(items) <==> NoRepeats(items[0].sources) && NothingRepeats(items[1..])
  {
    assert forall i :: 1 <= i < |items| ==> items[i] == items[1..][i - 1];
  }

  lemma {:induction false} WriteItemsSucceedIff(po: nat, w: Writing, items: seq<ItemRequest>)
    requires SourcesExist(w.lines, items)
    ensures forall x :: x in AllSources(items) ==> x.prLine in w.lines
    ensures WriteItems(po, w, items).Ok? <==> Convert(w.lines, AllSources(items)).Ok? && NothingRepeats(items)
    decreases |items|
  {
    AllSourcesExist(w.lines, items);
    if items != [] {
      ConvertConcat(w.lines, items[0].sources, AllSources(items[1..]));
      RepeatsFront(items);
      if WriteItem(po, w, items[0]).Ok? { WriteItemsSucceedIff(po, WriteItem(po, w, items[0]).value, items[1..]); }
    }
  }

  // create_po succeeds exactly when its payload is well asked, no order line names a requisition line twice, and no
  // requisition line is asked for more, over all order lines together, than it has left.
  lemma {:induction false} CreatePoSucceedsIff(db: Db, user: User, m: Master, supplier: int, items: seq<ItemRequest>)
    ensures CreatedPo(db, user, m, supplier, items).Ok? <==>
      && WellAsked(db, m, supplier, items)
      && NothingRepeats(items)
      && (forall l :: l in db.prLines ==> Bears(db.prLines, AllSources(items), l))
  {
    hide WellAsked, Precheck, WriteItems, NothingRepeats, FlipToConverted;
    OrderPrecheckIs(db, m, supplier, items);
    if Precheck(db, m, supplier, items).Ok? {
      PrecheckTouches(db, m, supplier, items);
      WriteItemsSucceedIff(|db.pos|, Writing(db.prLines, db.poLines, db.sources, 0), items);
      ConvertMeans(db.prLines, AllSources(items));
    }
  }

  // ---------------------------------------------------------------------------------------------
  // Cancelling
  // ---------------------------------------------------------------------------------------------

  // In every reachable state, cancel_po succeeds on every draft or confirmed order its caller may handle: neither the
  // receipt guard nor the guard against giving back too much ever fires.
  lemma {:induction false} CancelPoSucceedsIff(db: Db, user: User, po: nat, version: nat)
    requires Valid(db) && Stored(db)
    ensures CancelledPo(db, user, po, version).Ok? <==>
      && po < |db.pos| && (db.pos[po].status == PoDraft || db.pos[po].status == PoConfirmed)
      && db.pos[po].version == version && (user.isAdmin || db.pos[po].buyer == user.id)
    ensures CancelledPo(db, user, po, version) != Err(Conflict)
    ensures CancelledPo(db, user, po, version) != Err(PoCancelHasReceipt)
  {
    ReceiptRules.CancelNeverFindsReceipts(db, user, po, version);
    if po < |db.pos| && MayTurn(db.pos[po].status, PoCancelled) {
      var pos2 := db.pos[po := db.pos[po].(status := PoCancelled, version := version + 1)];
      GiveBackNeverFails(db.prs, db.prLines, db.pos, db.poLines, db.sources, po, pos2);
      assert ReceiptRules.PoStatusFits(db.pos[po].status, db.poLines, po);
      ReceiptRules.NothingReceivedStatus(db.poLines, po);
      forall l | l in db.poLines && l.po == po ensures l.received == 0 {
        var j :| 0 <= j < |db.poLines| && db.poLines[j] == l;
      }
    }
  }

  // No live order draws on a requisition that is cancelled (or was never approved).
  lemma {:induction false} OnlyConvertibleIsDrawnOn(db: Db, p: nat)
    requires Valid(db) && p < |db.prs|
    requires db.prs[p].status != PrApproved && db.prs[p].status != PrConverted
    ensures !Requisitions.HasActivePo(db, p)
  {
    assert StatusFits(db.prs[p].status, db.prLines, p);
    forall x | x in db.sources && x.prLine in db.prLines && db.prLines[x.prLine].pr == p
      ensures !Requisitions.IsLive(db.pos, db.poLines, x)
    {
      var i :| 0 <= i < |db.sources| && db.sources[i] == x;
      if Requisitions.IsLive(db.pos, db.poLines, x) {
        LiveMeansConverted(db.prs, db.prLines, db.pos, db.poLines, db.sources, i);
      }
    }
  }

  lemma {:induction false} LiveMeansConverted(prs: seq<Pr>, lines: map<nat, PrLine>, pos: seq<Po>,
          poLines: seq<PoLine>, sources: seq<Source>, i: nat)
    requires SourcesFit(prs, lines, pos, poLines, sources) && i < |sources|
    requires Requisitions.IsLive(pos, poLines, sources[i])
    ensures sources[i].prLine in lines && lines[sources[i].prLine].converted > 0
  {
    var l := sources[i].prLine;
    forall y | y in sources ensures LiveOn(pos, poLines, l)(y) >= 0 {
      var n :| 0 <= n < |sources| && sources[n] == y;
      assert SourceFits(prs, lines, poLines, sources[n]);
    }
    assert SourceFits(prs, lines, poLines, sources[i]);
    SumCovers(sources, LiveOn(pos, poLines, l), i);
  }

  // Whether a live order draws on a requisition shows in its own lines, ...
  lemma {:induction false} ActivePoMeansConverted(db: Db, p: nat)
    requires SourcesFit(db.prs, db.prLines, db.pos, db.poLines, db.sources)
    ensures Requisitions.HasActivePo(db, p) <==> !NothingConverted(db.prLines, p)
  {
    if Requisitions.HasActivePo(db, p) {
      var x :| x in db.sources && x.prLine in db.prLines && db.prLines[x.prLine].pr == p
         && Requisitions.IsLive(db.pos, db.poLines, x);
      var i :| 0 <= i < |db.sources| && db.sources[i] == x;
      LiveMeansConverted(db.prs, db.prLines, db.pos, db.poLines, db.sources, i);
    } else {
      NoActivePoNothingConverted(db, p);
    }
  }

  // ... so cancel_pr succeeds exactly on a draft, or on an approved requisition of which nothing is converted.
  lemma {:induction false} CancelPrSucceedsIff(db: Db, user: User, p: nat)
    requires Valid(db)
    ensures Requisitions.CancelledPr(db, user, p).Ok? <==>
      && p < |db.prs| && Requisitions.MayManage(db.prs[p], user)
      && (db.prs[p].status == PrDraft || (db.prs[p].status == PrApproved && NothingConverted(db.prLines, p)))
  {
    ActivePoMeansConverted(db, p);
  }

  // Statuses that fit the same lines and differ only by flips are the same.
  lemma {:induction false} FlipsAreDetermined(prs: seq<Pr>, prs2: seq<Pr>, lines: map<nat, PrLine>)
    requires StatusesFit(prs, lines) && StatusesFit(prs2, lines) && OnlyFlips(prs, prs2)
    ensures prs2 == prs
  {
    forall p | 0 <= p < |prs| ensures prs2[p] == prs[p] {
      assert StatusFits(prs[p].status, lines, p) && StatusFits(prs2[p].status, lines, p);
    }
  }

  // Once the new order is cancelled, its source rows draw on nothing and the older rows draw on what they did.
  lemma {:induction false} NewSourcesDie(pos: seq<Po>, poLines: seq<PoLine>, sources: seq<Source>, pos2: seq<Po>,
          poLines2: seq<PoLine>, sources2: seq<Source>, l: nat)
    requires Extends(poLines, poLines2, |pos|) && ExtendsSources(sources, sources2, |poLines|)
    requires forall i :: 0 <= i < |sources| ==> sources[i].poLine < |poLines|
    requires forall j :: 0 <= j < |poLines| ==> poLines[j].po < |pos|
    requires |pos2| == |pos| + 1 && pos2[..|pos|] == pos && pos2[|pos|].status == PoCancelled
    ensures Sum(sources2, LiveOn(pos2, poLines2, l)) == Sum(sources, LiveOn(pos, poLines, l))
  {
    var tail := sources2[|sources|..];
    assert sources2 == sources + tail;
    var f, g := LiveOn(pos2, poLines2, l), LiveOn(pos, poLines, l);
    forall x | x in sources ensures f(x) == g(x) {
      var i :| 0 <= i < |sources| && sources[i] == x;
      assert poLines2[..|poLines|][x.poLine] == poLines2[x.poLine];
      assert pos2[..|pos|][poLines[x.poLine].po] == pos2[poLines[x.poLine].po];
    }
    forall x | x in tail ensures f(x) == 0 {
      var i :| 0 <= i < |tail| && tail[i] == x;
      assert sources2[|sources| + i] == x;
    }
    SumConcat(sources, tail, f);
    SumEqual(sources, f, g);
    SumZero(tail, f);
  }

  // What cancelling does to the other tables, seen from outside.
  lemma {:induction false} CancelEffect(db: Db, user: User, po: nat, version: nat, after: Db)
    requires Valid(db) && OrderKeys(db.pos, db.poLines, db.sources, db.prLines)
    requires CancelledPo(db, user, po, version) == Ok(after)
    ensures po < |db.pos| && after.pos == db.pos[po := db.pos[po].(status := PoCancelled, version := version + 1)]
    ensures after.poLines == db.poLines && after.sources == db.sources && OnlyFlips(db.prs, after.prs)
    ensures after.prLines.Keys == db.prLines.Keys
    ensures forall l :: l in db.prLines ==> after.prLines[l] == db.prLines[l].(converted := after.prLines[l].converted)
  {
    GiveBackNeverFails(db.prs, db.prLines, db.pos, db.poLines, db.sources, po, after.pos);
  }

  // The order tables alone, without the rules on documents, stock and counts.
  ghost predicate ChainFits(db: Db) {
    SourcesFit(db.prs, db.prLines, db.pos, db.poLines, db.sources) && forall j :: 0 <= j < |db.poLines| ==>
      PoLineFits(db.pos, db.poLines[j])
  }

  lemma {:induction false} ValidChainFits(db: Db)
    requires Valid(db)
    ensures ChainFits(db)
  {
  }

  lemma {:induction false} CancelRestoresLines(db: Db, mid: Db, after: Db)
    requires ChainFits(db) && ChainFits(after) && PoAdds(db, mid)
    requires after.poLines == mid.poLines && after.sources == mid.sources
    requires |after.pos| == |db.pos| + 1 && after.pos[..|db.pos|] == db.pos && after.pos[|db.pos|].status == PoCancelled
    requires after.prLines.Keys == mid.prLines.Keys
    requires forall l :: l in mid.prLines ==>
      after.prLines[l] == mid.prLines[l].(converted := after.prLines[l].converted)
    ensures after.prLines == db.prLines
  {
    forall i | 0 <= i < |db.sources| ensures db.sources[i].poLine < |db.poLines| {
      assert SourceFits(db.prs, db.prLines, db.poLines, db.sources[i]);
    }
    forall j | 0 <= j < |db.poLines| ensures db.poLines[j].po < |db.pos| { assert PoLineFits(db.pos, db.poLines[j]); }
    forall l | l in db.prLines ensures after.prLines[l] == db.prLines[l] {
      NewSourcesDie(db.pos, db.poLines, db.sources, after.pos, after.poLines, after.sources, l);
    }
  }

  // Creating an order and cancelling it leaves every requisition, its lines and its status as they were.
  lemma {:induction false} CreateThenCancel(db: Db, user: User, m: Master, supplier: int, items: seq<ItemRequest>,
          mid: Db)
    requires Valid(db) && CreatedPo(db, user, m, supplier, items) == Ok(mid)
    ensures Stored(mid) && CancelledPo(mid, user, |db.pos|, 1).Ok?
    ensures var after := CancelledPo(mid, user, |db.pos|, 1).value; after.prLines == db.prLines && after.prs == db.prs
  {
    hide SourcesFit, OrdersFit, LinesFit, StatusesFit, TrailsFit, CancelledPo, WriteItems, Precheck, Extends,
         ExtendsSources, RequisitionKeys, ReceiptKeys, BalanceChecks;
    CreatedPoKeepsRules(db, user, m, supplier, items, mid);
    CreatedPoKeepsValid(db, user, m, supplier, items, mid);
    ValidIsStored(mid);
    CancelPoSucceedsIff(mid, user, |db.pos|, 1);
    var after := CancelledPo(mid, user, |db.pos|, 1).value;
    CancelEffect(mid, user, |db.pos|, 1, after);
    CancelledPoKeepsValid(mid, user, |db.pos|, 1, after);
    ValidChainFits(db);
    ValidChainFits(after);
    CancelRestoresLines(db, mid, after);
    FlipsCompose(db.prs, mid.prs, after.prs);
    FlipsAreDetermined(db.prs, after.prs, db.prLines);
  }

  lemma {:induction false} FlipsCompose(a: seq<Pr>, b: seq<Pr>, c: seq<Pr>)
    requires OnlyFlips(a, b) && OnlyFlips(b, c)
    ensures OnlyFlips(a, c)
  {
  }

  // ---------------------------------------------------------------------------------------------
  // Conservation along the whole chain
  // ---------------------------------------------------------------------------------------------

  function LiveQuantity(pos: seq<Po>, poLines: seq<PoLine>): Source -> int {
    (x: Source) => if Requisitions.IsLive(pos, poLines, x) then x.quantity else 0
  }

  function ConvertedAt(lines: map<nat, PrLine>): int -> int {
    (l: int) => if l >= 0 && l in lines then lines[l].converted else 0
  }

  function RequestedAt(lines: map<nat, PrLine>): int -> int {
    (l: int) => if l >= 0 && l in lines then lines[l].requested else 0
  }

  // What order lines of live orders ordered, and what order lines received.
  function LiveOrdered(pos: seq<Po>): PoLine -> int {
    (line: PoLine) => if line.po < |pos| && pos[line.po].status != PoCancelled then line.ordered else 0
  }

  function ReceivedOn(): PoLine -> int {
    (line: PoLine) => line.received
  }

  // A listing of all requisition lines, each once.
  ghost predicate Lists(ids: seq<int>, lines: map<nat, PrLine>) {
    && (forall i :: 0 <= i < |ids| ==> ids[i] >= 0 && ids[i] in lines)
    && (forall l :: l in lines ==> exists i :: 0 <= i < |ids| && ids[i] == l)
    && (forall i, j :: 0 <= i < j < |ids| ==> ids[i] != ids[j])
  }

  function DrawnCell(pos: seq<Po>, poLines: seq<PoLine>): (int, Source) -> int {
    (l: int, x: Source) => if x.prLine == l && Requisitions.IsLive(pos, poLines, x) then x.quantity else 0
  }

  function FedCell(pos: seq<Po>, poLines: seq<PoLine>): (int, Source) -> int {
    (j: int, x: Source) => if x.poLine == j && Requisitions.IsLive(pos, poLines, x) then x.quantity else 0
  }

  lemma {:induction false} DrawnRow(db: Db, l: int)
    requires ChainFits(db) && l >= 0 && l in db.prLines
    ensures RowSums<int, Source>(DrawnCell(db.pos, db.poLines), db.sources)(l) == ConvertedAt(db.prLines)(l)
  {
    SumEqual(db.sources, Given<int, Source>(DrawnCell(db.pos, db.poLines), l), LiveOn(db.pos, db.poLines, l));
  }

  lemma {:induction false} DrawnColumn(db: Db, ids: seq<int>, n: nat)
    requires ChainFits(db) && Lists(ids, db.prLines) && n < |db.sources|
    ensures ColumnSums<int, Source>(DrawnCell(db.pos, db.poLines), ids)(db.sources[n])
         == LiveQuantity(db.pos, db.poLines)(db.sources[n])
  {
    var x := db.sources[n];
    assert SourceFits(db.prs, db.prLines, db.poLines, x);
    var i :| 0 <= i < |ids| && ids[i] == x.prLine;
    SumOnly(ids, i, Against<int, Source>(DrawnCell(db.pos, db.poLines), x));
  }

  lemma {:induction false} ConvertedIsDrawn(db: Db, ids: seq<int>)
    requires ChainFits(db) && Lists(ids, db.prLines)
    ensures Sum(ids, ConvertedAt(db.prLines)) == Sum(db.sources, LiveQuantity(db.pos, db.poLines))
  {
    var f := DrawnCell(db.pos, db.poLines);
    DoubleCount<int, Source>(ids, db.sources, f);
    forall l | l in ids ensures RowSums<int, Source>(f, db.sources)(l) == ConvertedAt(db.prLines)(l) {
      DrawnRow(db, l);
    }
    SumEqual(ids, RowSums<int, Source>(f, db.sources), ConvertedAt(db.prLines));
    forall x | x in db.sources ensures ColumnSums<int, Source>(f, ids)(x) == LiveQuantity(db.pos, db.poLines)(x) {
      var n :| 0 <= n < |db.sources| && db.sources[n] == x;
      DrawnColumn(db, ids, n);
    }
    SumEqual(db.sources, ColumnSums<int, Source>(f, ids), LiveQuantity(db.pos, db.poLines));
  }

  lemma {:induction false} FedRow(db: Db, j: nat)
    requires ChainFits(db) && j < |db.poLines|
    ensures RowSums<int, Source>(FedCell(db.pos, db.poLines), db.sources)(j) == LiveOrdered(db.pos)(db.poLines[j])
  {
    assert PoLineFits(db.pos, db.poLines[j]);
    if db.pos[db.poLines[j].po].status != PoCancelled {
      SumEqual(db.sources, Given<int, Source>(FedCell(db.pos, db.poLines), j), Into(j));
    } else {
      SumZero(db.sources, Given<int, Source>(FedCell(db.pos, db.poLines), j));
    }
  }

  lemma {:induction false} FedColumn(db: Db, n: nat)
    requires ChainFits(db) && n < |db.sources|
    ensures ColumnSums<int, Source>(FedCell(db.pos, db.poLines), Positions(|db.poLines|))(db.sources[n])
         == LiveQuantity(db.pos, db.poLines)(db.sources[n])
  {
    var x := db.sources[n];
    assert SourceFits(db.prs, db.prLines, db.poLines, x);
    SumOnly(Positions(|db.poLines|), x.poLine, Against<int, Source>(FedCell(db.pos, db.poLines), x));
  }

  lemma {:induction false} OrderedIsFed(db: Db)
    requires ChainFits(db)
    ensures Sum(db.poLines, LiveOrdered(db.pos)) == Sum(db.sources, LiveQuantity(db.pos, db.poLines))
  {
    var f, js := FedCell(db.pos, db.poLines), Positions(|db.poLines|);
    DoubleCount<int, Source>(js, db.sources, f);
    forall j | 0 <= j < |js| ensures RowSums<int, Source>(f, db.sources)(js[j]) == LiveOrdered(db.pos)(db.poLines[j]) {
      FedRow(db, j);
    }
    SumAlike(js, db.poLines, RowSums<int, Source>(f, db.sources), LiveOrdered(db.pos));
    forall x | x in db.sources ensures ColumnSums<int, Source>(f, js)(x) == LiveQuantity(db.pos, db.poLines)(x) {
      var n :| 0 <= n < |db.sources| && db.sources[n] == x;
      FedColumn(db, n);
    }
    SumEqual(db.sources, ColumnSums<int, Source>(f, js), LiveQuantity(db.pos, db.poLines));
  }

  lemma {:induction false} ReceivedWithinOrdered(db: Db, j: nat)
    requires Valid(db) && j < |db.poLines|
    ensures ReceivedOn()(db.poLines[j]) <= LiveOrdered(db.pos)(db.poLines[j])
  {
    assert ReceiptRules.ReceivedFits(db.poLines, db.receipts, db.receiptLines, j) && PoLineFits(db.pos, db.poLines[j]);
    assert ReceiptRules.PoStatusFits(db.pos[db.poLines[j].po].status, db.poLines, db.poLines[j].po);
  }

  lemma {:induction false} AllReceivedWithinOrdered(db: Db)
    requires Valid(db)
    ensures Sum(db.poLines, ReceivedOn()) <= Sum(db.poLines, LiveOrdered(db.pos))
  {
    forall line | line in db.poLines ensures ReceivedOn()(line) <= LiveOrdered(db.pos)(line) {
      var j :| 0 <= j < |db.poLines| && db.poLines[j] == line;
      ReceivedWithinOrdered(db, j);
    }
    SumAtMost(db.poLines, ReceivedOn(), LiveOrdered(db.pos));
  }

  lemma {:induction false} ConvertedWithinRequested(db: Db, ids: seq<int>)
    requires LinesFit(db.prs, db.prLines, db.nextPrLine) && Lists(ids, db.prLines)
    ensures Sum(ids, ConvertedAt(db.prLines)) <= Sum(ids, RequestedAt(db.prLines))
  {
    forall l | l in ids ensures ConvertedAt(db.prLines)(l) <= RequestedAt(db.prLines)(l) {
      assert LineFits(db.prLines[l]);
    }
    SumAtMost(ids, ConvertedAt(db.prLines), RequestedAt(db.prLines));
  }

  // received <= ordered == converted <= requested, summed over everything there is.
  lemma {:induction false} ChainConserves(db: Db, ids: seq<int>)
    requires Valid(db) && Lists(ids, db.prLines)
    ensures Sum(db.poLines, ReceivedOn()) <= Sum(db.poLines, LiveOrdered(db.pos))
         == Sum(ids, ConvertedAt(db.prLines)) <= Sum(ids, RequestedAt(db.prLines))
  {
    ValidChainFits(db);
    ConvertedIsDrawn(db, ids);
    OrderedIsFed(db);
    AllReceivedWithinOrdered(db);
    ConvertedWithinRequested(db, ids);
  }
}
