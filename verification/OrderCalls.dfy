/** What every call on orders asks of its caller and its payload, and exactly what it leaves in the tables. */
module OrderCalls {
  import opened Sums
  import opened Money
  import opened Tables
  import opened Acceptance
  import opened Orders
  import opened OrderRules
  import opened Validity
  import ChainLaws
  import RequisitionRules

  // ---------------------------------------------------------------------------------------------
  // What create_po writes
  // ---------------------------------------------------------------------------------------------

  function OrderedLine(po: nat, item: ItemRequest): PoLine {
    PoLine(po, item.material, item.ordered, 0, item.price, LineAmount(item.ordered, item.price))
  }

  // One order line for each item, in payload order.
  function OrderedLines(po: nat, items: seq<ItemRequest>): (r: seq<PoLine>)
    ensures |r| == |items| && forall i :: 0 <= i < |items| ==> r[i] == OrderedLine(po, items[i])
  {
    seq(|items|, i requires 0 <= i < |items| => OrderedLine(po, items[i]))
  }

  function AskedSource(poLine: nat, x: SourceRequest): Source {
    Source(poLine, x.prLine, x.quantity)
  }

  // The source rows of order line `poLine`.
  function AskedRows(poLine: nat, sources: seq<SourceRequest>): (r: seq<Source>)
    ensures |r| == |sources| && forall k :: 0 <= k < |sources| ==> r[k] == AskedSource(poLine, sources[k])
  {
    seq(|sources|, k requires 0 <= k < |sources| => AskedSource(poLine, sources[k]))
  }

  // All source rows, line by line, the first line being order line `first`.
  function AllRows(first: nat, items: seq<ItemRequest>): seq<Source>
    decreases |items|
  {
    if items == [] then [] else AskedRows(first, items[0].sources) + AllRows(first + 1, items[1..])
  }

  function LineAmountOf(): PoLine -> int {
    (l: PoLine) => l.amount
  }

  lemma {:induction false} OrderedFront(po: nat, items: seq<ItemRequest>)
    requires items != []
    ensures OrderedLines(po, items) == [OrderedLine(po, items[0])] + OrderedLines(po, items[1..])
  {
  }

  // What is written once all items are, starting from `w`.
  ghost predicate WrittenAs(po: nat, w: Writing, items: seq<ItemRequest>, r: Writing) {
    && r.poLines == w.poLines + OrderedLines(po, items)
    && r.sources == w.sources + AllRows(|w.poLines|, items)
    && r.total == w.total + Sum(OrderedLines(po, items), LineAmountOf())
  }

  lemma {:induction false} WriteItemDoes(po: nat, w: Writing, item: ItemRequest)
    requires (forall x :: x in item.sources ==> x.prLine in w.lines) && WriteItem(po, w, item).Ok?
    ensures var r := WriteItem(po, w, item).value;
      && r.poLines == w.poLines + [OrderedLine(po, item)]
      && r.sources == w.sources + AskedRows(|w.poLines|, item.sources)
      && r.total == w.total + OrderedLine(po, item).amount
      && Ok(r.lines) == Convert(w.lines, item.sources)
  {
    hide Convert, NoRepeats, LineAmount;
    assert SourcesOf(|w.poLines|, item.sources) == AskedRows(|w.poLines|, item.sources);
  }

  lemma {:induction false} WrittenFront(po: nat, w: Writing, items: seq<ItemRequest>, next: Writing, r: Writing)
    requires items != [] && WrittenAs(po, next, items[1..], r)
    requires next.poLines == w.poLines + [OrderedLine(po, items[0])]
    requires next.sources == w.sources + AskedRows(|w.poLines|, items[0].sources)
    requires next.total == w.total + OrderedLine(po, items[0]).amount
    ensures WrittenAs(po, w, items, r)
  {
    hide LineAmount;
    var line, rest := OrderedLine(po, items[0]), OrderedLines(po, items[1..]);
    OrderedFront(po, items);
    SumConcat([line], rest, LineAmountOf());
    SumSnoc([], line, LineAmountOf());
    assert [] + [line] == [line];
    Regroup(w.poLines, [line], rest);
    Regroup(w.sources, AskedRows(|w.poLines|, items[0].sources), AllRows(|w.poLines| + 1, items[1..]));
  }

  lemma {:induction false} WriteItemsIs(po: nat, w: Writing, items: seq<ItemRequest>)
    requires SourcesExist(w.lines, items) && WriteItems(po, w, items).Ok?
    ensures WrittenAs(po, w, items, WriteItems(po, w, items).value)
    ensures forall x :: x in ChainLaws.AllSources(items) ==> x.prLine in w.lines
    ensures Ok(WriteItems(po, w, items).value.lines) == Convert(w.lines, ChainLaws.AllSources(items))
    decreases |items|
  {
    hide WrittenAs, WriteItem, Convert;
    ChainLaws.AllSourcesExist(w.lines, items);
    if items == [] {
      WrittenNothing(po, w);
      ConvertNothing(w.lines);
    } else {
      WriteItemDoes(po, w, items[0]);
      var next := WriteItem(po, w, items[0]).value;
      ChainLaws.ConvertConcat(w.lines, items[0].sources, ChainLaws.AllSources(items[1..]));
      WriteItemsIs(po, next, items[1..]);
      WrittenFront(po, w, items, next, WriteItems(po, next, items[1..]).value);
    }
  }

  lemma {:induction false} ConvertNothing(lines: map<nat, PrLine>)
    ensures Convert(lines, []) == Ok(lines)
  {
  }

  lemma {:induction false} WrittenNothing(po: nat, w: Writing)
    ensures WrittenAs(po, w, [], w)
  {
    assert OrderedLines(po, []) == [];
  }

  // ---------------------------------------------------------------------------------------------
  // create_po
  // ---------------------------------------------------------------------------------------------

  predicate Full(lines: map<nat, PrLine>, p: nat) {
    forall l :: l in lines && lines[l].pr == p ==> lines[l].converted >= lines[l].requested
  }

  predicate AsksFrom(lines: map<nat, PrLine>, items: seq<ItemRequest>, p: nat) {
    exists l: nat :: l in lines && Asks(items, l) && lines[l].pr == p
  }

  // A requisition the order asks from turns CONVERTED when all its lines are full; every other one stays.
  ghost predicate TurnsFull(db: Db, items: seq<ItemRequest>, lines2: map<nat, PrLine>, prs2: seq<Pr>) {
    && |prs2| == |db.prs|
    && forall p :: 0 <= p < |db.prs| ==>
         prs2[p] == if AsksFrom(db.prLines, items, p) && Full(lines2, p) then db.prs[p].(status := PrConverted)
                    else db.prs[p]
  }

  lemma {:induction false} TouchedAsks(db: Db, items: seq<ItemRequest>, p: nat)
    requires SourcesExist(db.prLines, items)
    ensures p in TouchedPrs(db.prLines, items) <==> AsksFrom(db.prLines, items, p)
  {
    if p in TouchedPrs(db.prLines, items) {
      var item, x :| item in items && x in item.sources && db.prLines[x.prLine].pr == p;
      var i :| 0 <= i < |items| && items[i] == item;
      var k :| 0 <= k < |item.sources| && item.sources[k] == x;
      assert Asks(items, x.prLine);
    }
    if AsksFrom(db.prLines, items, p) {
      var l: nat :| l in db.prLines && Asks(items, l) && db.prLines[l].pr == p;
      var i, k :| 0 <= i < |items| && 0 <= k < |items[i].sources| && items[i].sources[k].prLine == l;
      assert items[i] in items && items[i].sources[k] in items[i].sources;
    }
  }

  lemma {:induction false} FlipIsTurn(db: Db, m: Master, supplier: int, items: seq<ItemRequest>,
          lines2: map<nat, PrLine>)
    requires Precheck(db, m, supplier, items).Ok?
    ensures TurnsFull(db, items, lines2, FlipToConverted(db.prs, lines2, TouchedPrs(db.prLines, items)))
  {
    hide ItemsOk;
    var touched := TouchedPrs(db.prLines, items);
    forall p | 0 <= p < |db.prs| ensures p in touched <==> AsksFrom(db.prLines, items, p) { TouchedAsks(db, items, p); }
  }

  // The order, its lines and source rows, the conversions it takes, and the requisitions it completes; nothing else
  // changes.
  lemma {:induction false} CreatedPoLeaves(db: Db, user: User, m: Master, supplier: int, items: seq<ItemRequest>,
          after: Db)
    requires CreatedPo(db, user, m, supplier, items) == Ok(after)
    ensures var lines := OrderedLines(|db.pos|, items);
      && after.pos == db.pos + [Po(user.id, PoDraft, Sum(lines, LineAmountOf()), 1)]
      && after.poLines == db.poLines + lines
    ensures after.sources == db.sources + AllRows(|db.poLines|, items)
    ensures after.prLines == ConvertedBy(db.prLines, ChainLaws.AllSources(items))
    ensures TurnsFull(db, items, after.prLines, after.prs)
    ensures after == db.(pos := after.pos, poLines := after.poLines, sources := after.sources, prLines := after.prLines,
                         prs := after.prs, audit := db.audit + [Audit(PoCreated, |db.pos|)])
  {
    hide WriteItems, FlipToConverted, TurnsFull, ConvertedBy, Convert, Precheck;
    PrecheckTouches(db, m, supplier, items);
    var start := Writing(db.prLines, db.poLines, db.sources, 0);
    WriteItemsIs(|db.pos|, start, items);
    ConvertMeans(db.prLines, ChainLaws.AllSources(items));
    FlipIsTurn(db, m, supplier, items, after.prLines);
    var total := WriteItems(|db.pos|, start, items).value.total;
    SumAmountsExact([total]);
    SumSnoc([], total, ITSELF);
  }

  lemma {:induction false} ConvertErrors(lines: map<nat, PrLine>, sources: seq<SourceRequest>)
    requires forall x :: x in sources ==> x.prLine in lines
    ensures Convert(lines, sources).Err? ==> Convert(lines, sources).error == PrItemConvertExceeded
  {
    if sources != [] {
      var x, line := sources[0], lines[sources[0].prLine];
      ConvertErrors(lines[x.prLine := line.(converted := line.converted + x.quantity)], sources[1..]);
    }
  }

  lemma {:induction false} WriteErrors(po: nat, w: Writing, items: seq<ItemRequest>)
    requires SourcesExist(w.lines, items) && WriteItems(po, w, items).Err?
    ensures forall x :: x in ChainLaws.AllSources(items) ==> x.prLine in w.lines
    ensures WriteItems(po, w, items).error in {PrItemConvertExceeded, DuplicateKey}
    ensures ChainLaws.NothingRepeats(items) ==> WriteItems(po, w, items).error == PrItemConvertExceeded
    ensures Convert(w.lines, ChainLaws.AllSources(items)).Ok? ==> WriteItems(po, w, items).error == DuplicateKey
    decreases |items|
  {
    hide Convert, NoRepeats;
    ChainLaws.AllSourcesExist(w.lines, items);
    if items != [] {
      ConvertErrors(w.lines, items[0].sources);
      ChainLaws.ConvertConcat(w.lines, items[0].sources, ChainLaws.AllSources(items[1..]));
      ChainLaws.RepeatsFront(items);
      if WriteItem(po, w, items[0]).Ok? { WriteErrors(po, WriteItem(po, w, items[0]).value, items[1..]); }
    }
  }

  // Why create_po is refused: for its payload, or for a requisition line that is asked for more than it has left, or
  // for an order line that names a requisition line twice.
  lemma {:induction false} CreatedPoRefused(db: Db, user: User, m: Master, supplier: int, items: seq<ItemRequest>)
    requires CreatedPo(db, user, m, supplier, items).Err?
    ensures var e := CreatedPo(db, user, m, supplier, items).error;
      if !WellAsked(db, m, supplier, items) then AskRefusal(db, m, supplier, items, e)
      else
        && e in {PrItemConvertExceeded, DuplicateKey}
        && (ChainLaws.NothingRepeats(items) ==> e == PrItemConvertExceeded)
        && ((forall l :: l in db.prLines ==> Bears(db.prLines, ChainLaws.AllSources(items), l)) ==> e == DuplicateKey)
  {
    hide WellAsked, AskRefusal, WriteItems, Convert, Bears, Precheck, ChainLaws.NothingRepeats, FlipToConverted;
    OrderPrecheckIs(db, m, supplier, items);
    if Precheck(db, m, supplier, items).Ok? {
      PrecheckTouches(db, m, supplier, items);
      WriteErrors(|db.pos|, Writing(db.prLines, db.poLines, db.sources, 0), items);
      ConvertMeans(db.prLines, ChainLaws.AllSources(items));
    }
  }

  // ---------------------------------------------------------------------------------------------
  // confirm_po and cancel_po
  // ---------------------------------------------------------------------------------------------

  predicate Handles(user: User, po: Po) {
    user.isAdmin || user.id == po.buyer
  }

  predicate IsLineOf(poLines: seq<PoLine>, po: nat, j: nat) {
    j < |poLines| && poLines[j].po == po
  }

  predicate IsPriced(poLines: seq<PoLine>, po: nat) {
    forall j :: 0 <= j < |poLines| && IsLineOf(poLines, po, j) ==> poLines[j].price > 0
  }

  predicate IsEmpty(poLines: seq<PoLine>, po: nat) {
    forall j :: 0 <= j < |poLines| ==> !IsLineOf(poLines, po, j)
  }

  lemma {:induction false} PoLinesAre(poLines: seq<PoLine>, po: nat)
    ensures HasLines(poLines, po) <==> !IsEmpty(poLines, po)
    ensures (exists l :: l in poLines && l.po == po && l.price <= 0) <==> !IsPriced(poLines, po)
  {
    if !IsEmpty(poLines, po) {
      var j :| 0 <= j < |poLines| && IsLineOf(poLines, po, j);
      assert poLines[j] in poLines;
    }
    if !IsPriced(poLines, po) {
      var j :| 0 <= j < |poLines| && IsLineOf(poLines, po, j) && poLines[j].price <= 0;
      assert poLines[j] in poLines;
    }
    if l :| l in poLines && l.po == po {
      var j :| 0 <= j < |poLines| && poLines[j] == l;
      assert IsLineOf(poLines, po, j);
    }
    if l :| l in poLines && l.po == po && l.price <= 0 {
      var j :| 0 <= j < |poLines| && poLines[j] == l;
      assert IsLineOf(poLines, po, j);
    }
  }

  predicate IsDraftAt(db: Db, po: nat, version: nat) {
    po < |db.pos| && db.pos[po].status == PoDraft && db.pos[po].version == version
  }

  // confirm_po succeeds exactly on a draft at the given version with lines, all at a positive price, for its buyer or
  // an administrator; only its status and version move.
  lemma {:induction false} ConfirmedPoIs(db: Db, user: User, po: nat, version: nat)
    ensures var r := ConfirmedPo(db, user, po, version);
      && (r.Ok? <==>
            && IsDraftAt(db, po, version) && Handles(user, db.pos[po])
            && !IsEmpty(db.poLines, po) && IsPriced(db.poLines, po))
      && (r.Ok? ==>
            && |r.value.pos| == |db.pos|
            && r.value.pos[po] == db.pos[po].(status := PoConfirmed, version := db.pos[po].version + 1)
            && (forall o :: 0 <= o < |db.pos| && o != po ==> r.value.pos[o] == db.pos[o])
            && r.value == db.(pos := r.value.pos, audit := db.audit + [Audit(PoWasConfirmed, po)]))
      && (r.Err? ==> match r.error
            case PoNotFound => po >= |db.pos|
            case PoInvalidStatusTransition => po < |db.pos| && db.pos[po].status != PoDraft
            case PoVersionConflict => po < |db.pos| && db.pos[po].status == PoDraft && db.pos[po].version != version
            case PermissionDenied => IsDraftAt(db, po, version) && !Handles(user, db.pos[po])
            case PoEmptyItems =>
              IsDraftAt(db, po, version) && Handles(user, db.pos[po]) && IsEmpty(db.poLines, po)
            case PoUnitPriceRequired =>
              && IsDraftAt(db, po, version) && Handles(user, db.pos[po])
              && !IsEmpty(db.poLines, po) && !IsPriced(db.poLines, po)
            case _ => false)
  {
    PoLinesAre(db.poLines, po);
    hide HasLines, IsEmpty, IsPriced;
  }

  // What a source row holds of line l for order `po`.
  function HeldBy(poLines: seq<PoLine>, po: nat, l: nat): Source -> int {
    (x: Source) => if IsLineOf(poLines, po, x.poLine) && x.prLine == l then x.quantity else 0
  }

  predicate DrawsFrom(db: Db, po: nat, p: nat) {
    exists i :: 0 <= i < |db.sources| && IsLineOf(db.poLines, po, db.sources[i].poLine)
             && db.sources[i].prLine in db.prLines && db.prLines[db.sources[i].prLine].pr == p
  }

  predicate GivesBack(db: Db, po: nat, lines2: map<nat, PrLine>, l: nat)
    requires l in db.prLines
  {
    && l in lines2
    && lines2[l] == db.prLines[l].(converted := db.prLines[l].converted
                                                - Sum(db.sources, HeldBy(db.poLines, po, l)))
  }

  // A converted requisition the order drew on is APPROVED again; every other one stays.
  ghost predicate TurnsBack(db: Db, po: nat, prs2: seq<Pr>) {
    && |prs2| == |db.prs|
    && forall p :: 0 <= p < |db.prs| ==>
         prs2[p] == if DrawsFrom(db, po, p) && db.prs[p].status == PrConverted then db.prs[p].(status := PrApproved)
                    else db.prs[p]
  }

  lemma {:induction false} RowsHold(db: Db, po: nat, l: nat)
    ensures Sum(Select(db.sources, FeedingPo(db.poLines, po)), GivingTo(l))
         == Sum(db.sources, HeldBy(db.poLines, po, l))
  {
    SumSelect(db.sources, FeedingPo(db.poLines, po), GivingTo(l), HeldBy(db.poLines, po, l));
  }

  lemma {:induction false} RowsDraw(db: Db, po: nat, p: nat)
    requires var rows := Select(db.sources, FeedingPo(db.poLines, po)); forall x :: x in rows ==> x.prLine in db.prLines
    ensures p in PrsOf(db.prLines, Select(db.sources, FeedingPo(db.poLines, po))) <==> DrawsFrom(db, po, p)
  {
    var rows := Select(db.sources, FeedingPo(db.poLines, po));
    if p in PrsOf(db.prLines, rows) {
      var x :| x in rows && db.prLines[x.prLine].pr == p;
      var i :| 0 <= i < |db.sources| && db.sources[i] == x;
      assert IsLineOf(db.poLines, po, db.sources[i].poLine);
    }
    if DrawsFrom(db, po, p) {
      var i :| 0 <= i < |db.sources| && IsLineOf(db.poLines, po, db.sources[i].poLine)
        && db.sources[i].prLine in db.prLines && db.prLines[db.sources[i].prLine].pr == p;
      assert db.sources[i] in rows;
    }
  }

  lemma {:induction false} ReturnsGiveBack(db: Db, po: nat)
    ensures var lines2 := ReturnedBy(db.prLines, Select(db.sources, FeedingPo(db.poLines, po)));
      forall l :: l in db.prLines ==> GivesBack(db, po, lines2, l)
  {
    forall l | l in db.prLines
      ensures GivesBack(db, po, ReturnedBy(db.prLines, Select(db.sources, FeedingPo(db.poLines, po))), l)
    {
      RowsHold(db, po, l);
    }
  }

  lemma {:induction false} FlipsTurnBack(db: Db, po: nat, rows: seq<Source>, lines2: map<nat, PrLine>)
    requires rows == Select(db.sources, FeedingPo(db.poLines, po)) && forall x :: x in rows ==> x.prLine in db.prLines
    requires forall p :: p in PrsOf(db.prLines, rows) ==> !FullyConverted(lines2, p)
    ensures TurnsBack(db, po, FlipBackToApproved(db.prs, lines2, PrsOf(db.prLines, rows)))
  {
    hide FullyConverted, PrsOf, DrawsFrom, Select;
    forall p | 0 <= p < |db.prs| ensures p in PrsOf(db.prLines, rows) <==> DrawsFrom(db, po, p) {
      RowsDraw(db, po, p);
    }
  }

  lemma {:induction false} CancelledRows(db: Db, user: User, po: nat, version: nat, after: Db)
    returns (rows: seq<Source>)
    requires Valid(db) && Stored(db) && CancelledPo(db, user, po, version) == Ok(after)
    ensures IsCancellation(db, after, po, rows) && po < |db.pos|
    ensures after.pos == db.pos[po := db.pos[po].(status := PoCancelled, version := db.pos[po].version + 1)]
    ensures forall p :: p in PrsOf(db.prLines, rows) ==> !FullyConverted(after.prLines, p)
  {
    hide SourcesFit, OrdersFit, RequisitionRules.StatusesFit, RequisitionRules.LinesFit, RequisitionRules.TrailsFit,
         OrderKeys, RequisitionKeys, ReceiptKeys, BalanceChecks, CancelledPo, IsCancellation, Select, FullyConverted,
         PrsOf, OnlyConverts, RequisitionRules.NothingConverted, OnlyFlips;
    rows := Select(db.sources, FeedingPo(db.poLines, po));
    CancelledPoIs(db, user, po, version, after);
    ChainLaws.CancelPoSucceedsIff(db, user, po, version);
    ChainLaws.CancelEffect(db, user, po, version, after);
    CancellationReturns(db, after, po, rows);
  }

  // In every reachable state cancel_po gives back exactly what the order holds, and changes nothing else but statuses.
  lemma {:induction false} CancelledPoLeaves(db: Db, user: User, po: nat, version: nat, after: Db)
    requires Valid(db) && Stored(db) && CancelledPo(db, user, po, version) == Ok(after)
    ensures po < |db.pos|
    ensures after.pos == db.pos[po := db.pos[po].(status := PoCancelled, version := db.pos[po].version + 1)]
    ensures after.prLines.Keys == db.prLines.Keys
    ensures forall l :: l in db.prLines ==> GivesBack(db, po, after.prLines, l)
    ensures TurnsBack(db, po, after.prs)
    ensures after == db.(pos := after.pos, prLines := after.prLines, prs := after.prs,
                         audit := db.audit + [Audit(PoWasCancelled, po)])
  {
    hide Valid, Stored, CancelledPo, TurnsBack, GivesBack, FlipBackToApproved, PrsOf, FullyConverted, Select,
         Cancelling;
    var rows := CancelledRows(db, user, po, version, after);
    ReturnsGiveBack(db, po);
    FlipsTurnBack(db, po, rows, after.prLines);
  }

  // In every reachable state cancel_po is refused only for a missing order, its status, its version or its caller.
  lemma {:induction false} CancelledPoRefused(db: Db, user: User, po: nat, version: nat)
    requires Valid(db) && Stored(db) && CancelledPo(db, user, po, version).Err?
    ensures match CancelledPo(db, user, po, version).error
      case PoNotFound => po >= |db.pos|
      case PoInvalidStatusTransition => po < |db.pos| && db.pos[po].status !in {PoDraft, PoConfirmed}
      case PoVersionConflict =>
        po < |db.pos| && db.pos[po].status in {PoDraft, PoConfirmed} && db.pos[po].version != version
      case PermissionDenied =>
        && po < |db.pos| && db.pos[po].status in {PoDraft, PoConfirmed} && db.pos[po].version == version
        && !Handles(user, db.pos[po])
      case _ => false
  {
    hide Valid;
    ChainLaws.CancelPoSucceedsIff(db, user, po, version);
  }
}
