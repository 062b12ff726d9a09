/** The quantity chain from requisition lines to order lines, and what every order operation keeps of it. */
module OrderRules {
  import opened Sums
  import opened Money
  import opened Tables
  import opened Orders
  import opened RequisitionRules
  import Requisitions

  // ---------------------------------------------------------------------------------------------
  // Sources: what was converted, and what was ordered
  // ---------------------------------------------------------------------------------------------

  // What a source row still draws from requisition line l: nothing once its order is cancelled.
  function LiveOn(pos: seq<Po>, poLines: seq<PoLine>, l: nat): Source -> int {
    (x: Source) => if x.prLine == l && Requisitions.IsLive(pos, poLines, x) then x.quantity else 0
  }

  // What a source row brings into order line j.
  function Into(j: nat): Source -> int {
    (x: Source) => if x.poLine == j then x.quantity else 0
  }

  predicate Convertible(status: PrStatus) {
    status == PrApproved || status == PrConverted || status == PrCancelled
  }

  predicate SourceFits(prs: seq<Pr>, lines: map<nat, PrLine>, poLines: seq<PoLine>, x: Source) {
    && x.quantity > 0 && x.poLine < |poLines|
    && x.prLine in lines && lines[x.prLine].pr < |prs| && Convertible(prs[lines[x.prLine].pr].status)
  }

  predicate SamePair(x: Source, y: Source) {
    x.poLine == y.poLine && x.prLine == y.prLine
  }

  ghost predicate SourcesFit(prs: seq<Pr>, lines: map<nat, PrLine>, pos: seq<Po>, poLines: seq<PoLine>,
          sources: seq<Source>) {
    && (forall i :: 0 <= i < |sources| ==> SourceFits(prs, lines, poLines, sources[i]))
    && (forall i, j :: 0 <= i < j < |sources| ==> !SamePair(sources[i], sources[j]))
    && (forall l :: l in lines ==> lines[l].converted == Sum(sources, LiveOn(pos, poLines, l)))
    && (forall j :: 0 <= j < |poLines| ==> poLines[j].ordered == Sum(sources, Into(j)))
  }

  // Requisition lines and headers may change as long as lines with sources stay, and new lines converted nothing.
  lemma {:induction false} SourcesKept(prs: seq<Pr>, lines: map<nat, PrLine>, pos: seq<Po>, poLines: seq<PoLine>,
          sources: seq<Source>, prs2: seq<Pr>, lines2: map<nat, PrLine>)
    requires SourcesFit(prs, lines, pos, poLines, sources)
    requires forall i :: 0 <= i < |sources| ==> SourceFits(prs2, lines2, poLines, sources[i])
    requires forall l :: l in lines2 ==> lines2[l].converted == if l in lines then lines[l].converted else 0
    ensures SourcesFit(prs2, lines2, pos, poLines, sources)
  {
    forall l | l in lines2 ensures lines2[l].converted == Sum(sources, LiveOn(pos, poLines, l)) {
      if l !in lines {
        forall i | 0 <= i < |sources| ensures sources[i].prLine != l {
          assert SourceFits(prs, lines, poLines, sources[i]);
        }
        SumZero(sources, LiveOn(pos, poLines, l));
      }
    }
  }

  lemma {:induction false} EditKeepsSources(prs: seq<Pr>, lines: map<nat, PrLine>, next: nat, pos: seq<Po>,
          poLines: seq<PoLine>, sources: seq<Source>, prs2: seq<Pr>, p: nat, e: Requisitions.Edit)
    requires SourcesFit(prs, lines, pos, poLines, sources) && LinesFit(prs, lines, next)
    requires EditedHeader(prs, prs2, p, e) && (p < |prs| ==> prs[p].status == PrDraft)
    requires Requisitions.LinesCarryOver(lines, next, p, ItemsNow(prs, p), e)
    ensures SourcesFit(prs2, e.lines, pos, poLines, sources)
  {
    forall i | 0 <= i < |sources| ensures SourceFits(prs2, e.lines, poLines, sources[i]) {
      var x := sources[i];
      assert SourceFits(prs, lines, poLines, x);
      OtherLinesStay(prs, lines, next, p, e, lines[x.prLine].pr);
    }
    SourcesKept(prs, lines, pos, poLines, sources, prs2, e.lines);
  }

  lemma {:induction false} TurnKeepsSources(prs: seq<Pr>, lines: map<nat, PrLine>, pos: seq<Po>, poLines: seq<PoLine>,
          sources: seq<Source>, p: nat, status: PrStatus)
    requires SourcesFit(prs, lines, pos, poLines, sources) && p < |prs|
    requires Convertible(prs[p].status) ==> Convertible(status)
    ensures SourcesFit(Turned(prs, p, status), lines, pos, poLines, sources)
  {
    var prs2 := Turned(prs, p, status);
    forall i | 0 <= i < |sources| ensures SourceFits(prs2, lines, poLines, sources[i]) {
      assert SourceFits(prs, lines, poLines, sources[i]);
    }
    SourcesKept(prs, lines, pos, poLines, sources, prs2, lines);
  }

  // An approved requisition that no live order draws on has nothing converted.
  lemma {:induction false} NoActivePoNothingConverted(db: Db, p: nat)
    requires SourcesFit(db.prs, db.prLines, db.pos, db.poLines, db.sources)
    requires !Requisitions.HasActivePo(db, p)
    ensures NothingConverted(db.prLines, p)
  {
    forall l | l in db.prLines && db.prLines[l].pr == p ensures db.prLines[l].converted == 0 {
      SumZero(db.sources, LiveOn(db.pos, db.poLines, l));
    }
  }

  // Receiving only changes received quantities; header totals never change once an order is written.
  ghost predicate SameOrders(pos: seq<Po>, poLines: seq<PoLine>, pos2: seq<Po>, poLines2: seq<PoLine>) {
    && |pos2| == |pos| && |poLines2| == |poLines|
    && (forall o :: 0 <= o < |pos| ==> pos2[o].total == pos[o].total)
    && (forall j :: 0 <= j < |poLines| ==> poLines2[j] == poLines[j].(received := poLines2[j].received))
  }

  ghost predicate SameLiveness(pos: seq<Po>, pos2: seq<Po>) {
    |pos2| == |pos| && forall o :: 0 <= o < |pos| ==> (pos2[o].status == PoCancelled <==> pos[o].status == PoCancelled)
  }

  lemma {:induction false} SameOrdersKeepSources(prs: seq<Pr>, lines: map<nat, PrLine>, pos: seq<Po>,
          poLines: seq<PoLine>, sources: seq<Source>, pos2: seq<Po>, poLines2: seq<PoLine>)
    requires SourcesFit(prs, lines, pos, poLines, sources) && SameOrders(pos, poLines, pos2, poLines2)
    requires SameLiveness(pos, pos2)
    ensures SourcesFit(prs, lines, pos2, poLines2, sources)
  {
    forall i | 0 <= i < |sources| ensures SourceFits(prs, lines, poLines2, sources[i]) {
      assert SourceFits(prs, lines, poLines, sources[i]);
    }
    forall l | l in lines ensures lines[l].converted == Sum(sources, LiveOn(pos2, poLines2, l)) {
      SumEqual(sources, LiveOn(pos, poLines, l), LiveOn(pos2, poLines2, l));
    }
  }

  // ---------------------------------------------------------------------------------------------
  // Orders: lines, totals
  // ---------------------------------------------------------------------------------------------

  predicate PoLineFits(pos: seq<Po>, line: PoLine) {
    line.po < |pos| && line.ordered > 0 && line.price >= 0 && line.amount == LineAmount(line.ordered, line.price)
  }

  function AmountOf(po: nat): PoLine -> int {
    (line: PoLine) => if line.po == po then line.amount else 0
  }

  predicate OrderFits(pos: seq<Po>, poLines: seq<PoLine>, po: nat)
    requires po < |pos|
  {
    HasLines(poLines, po) && pos[po].total == Sum(poLines, AmountOf(po))
  }

  ghost predicate OrdersFit(pos: seq<Po>, poLines: seq<PoLine>) {
    && (forall j :: 0 <= j < |poLines| ==> PoLineFits(pos, poLines[j]))
    && (forall po :: 0 <= po < |pos| ==> OrderFits(pos, poLines, po))
  }

  lemma {:induction false} SameOrdersFit(pos: seq<Po>, poLines: seq<PoLine>, pos2: seq<Po>, poLines2: seq<PoLine>)
    requires OrdersFit(pos, poLines) && SameOrders(pos, poLines, pos2, poLines2)
    ensures OrdersFit(pos2, poLines2)
  {
    forall j | 0 <= j < |poLines2| ensures PoLineFits(pos2, poLines2[j]) { assert PoLineFits(pos, poLines[j]); }
    forall po | 0 <= po < |pos2| ensures OrderFits(pos2, poLines2, po) {
      assert OrderFits(pos, poLines, po);
      SumAlike(poLines, poLines2, AmountOf(po), AmountOf(po));
      var j :| 0 <= j < |poLines| && poLines[j].po == po;
      assert poLines2[j] in poLines2;
    }
  }

  lemma {:induction false} OrderKeysFollow(prs: seq<Pr>, lines: map<nat, PrLine>, pos: seq<Po>, poLines: seq<PoLine>,
          sources: seq<Source>)
    requires SourcesFit(prs, lines, pos, poLines, sources) && OrdersFit(pos, poLines)
    ensures OrderKeys(pos, poLines, sources, lines)
  {
    forall j | 0 <= j < |poLines| ensures poLines[j].po < |pos| && poLines[j].ordered > 0 && poLines[j].price >= 0 {
      assert PoLineFits(pos, poLines[j]);
    }
    forall x | x in sources ensures x.poLine < |poLines| && x.prLine in lines && x.quantity > 0 {
      var i :| 0 <= i < |sources| && sources[i] == x;
      assert SourceFits(prs, lines, poLines, sources[i]);
    }
  }

  // ---------------------------------------------------------------------------------------------
  // Conversion: what a run of compare-and-sets does to a line
  // ---------------------------------------------------------------------------------------------

  function Taking(l: nat): SourceRequest -> int {
    (x: SourceRequest) => if x.prLine == l then x.quantity else 0
  }

  function ConvertedBy(lines: map<nat, PrLine>, sources: seq<SourceRequest>): (r: map<nat, PrLine>)
    ensures r.Keys == lines.Keys
  {
    map l | l in lines :: lines[l].(converted := lines[l].converted + Sum(sources, Taking(l)))
  }

  // Line l can bear everything that is taken from it.
  predicate Bears(lines: map<nat, PrLine>, sources: seq<SourceRequest>, l: nat)
    requires l in lines
  {
    Sum(sources, Taking(l)) > 0 ==> lines[l].converted + Sum(sources, Taking(l)) <= lines[l].requested
  }

  lemma {:induction false} TakingFront(sources: seq<SourceRequest>, l: nat)
    requires sources != []
    ensures Sum(sources, Taking(l)) == Taking(l)(sources[0]) + Sum(sources[1..], Taking(l))
    ensures Sum(sources[1..], Taking(l)) >= 0
  {
    SumFront(sources, Taking(l));
    SumNonNegative(sources[1..], Taking(l));
  }

  function Taken(lines: map<nat, PrLine>, x: SourceRequest): (r: map<nat, PrLine>)
    requires x.prLine in lines
    ensures r.Keys == lines.Keys
  {
    lines[x.prLine := lines[x.prLine].(converted := lines[x.prLine].converted + x.quantity)]
  }

  // The guard of the first source, seen from line l.
  predicate BearsFirst(lines: map<nat, PrLine>, x: SourceRequest, l: nat)
    requires x.prLine in lines
  {
    l == x.prLine ==> lines[l].converted + x.quantity <= lines[l].requested
  }

  lemma {:induction false} BearsStep(lines: map<nat, PrLine>, sources: seq<SourceRequest>, l: nat)
    requires sources != [] && sources[0].prLine in lines && l in lines
    ensures var next := Taken(lines, sources[0]);
      && (Bears(lines, sources, l) <==> Bears(next, sources[1..], l) && BearsFirst(lines, sources[0], l))
      && ConvertedBy(next, sources[1..])[l] == ConvertedBy(lines, sources)[l]
  {
    TakingFront(sources, l);
  }

  // The guards, checked one source at a time, pass exactly when every line can bear the total taken from it.
  lemma {:induction false} ConvertMeans(lines: map<nat, PrLine>, sources: seq<SourceRequest>)
    requires forall x :: x in sources ==> x.prLine in lines
    ensures Convert(lines, sources).Ok? <==> forall l :: l in lines ==> Bears(lines, sources, l)
    ensures Convert(lines, sources).Ok? ==> Convert(lines, sources).value == ConvertedBy(lines, sources)
  {
    if sources != [] {
      hide Sum, Bears, ConvertedBy;
      var next, rest := Taken(lines, sources[0]), sources[1..];
      forall l | l in lines
        ensures Bears(lines, sources, l) <==> Bears(next, rest, l) && BearsFirst(lines, sources[0], l)
        ensures ConvertedBy(next, rest)[l] == ConvertedBy(lines, sources)[l]
      {
        BearsStep(lines, sources, l);
      }
      ConvertMeans(next, rest);
      assert ConvertedBy(next, rest) == ConvertedBy(lines, sources);
      assert BearsFirst(lines, sources[0], sources[0].prLine) <==>
        lines[sources[0].prLine].converted + sources[0].quantity <= lines[sources[0].prLine].requested;
    }
  }

  // ---------------------------------------------------------------------------------------------
  // Writing one item of a new order
  // ---------------------------------------------------------------------------------------------

  lemma {:induction false} SumOverSources(j: nat, sources: seq<SourceRequest>, f: Source -> int,
          g: SourceRequest -> int)
    requires forall x :: x in sources ==> f(Source(j, x.prLine, x.quantity)) == g(x)
    ensures Sum(SourcesOf(j, sources), f) == Sum(sources, g)
  {
    if sources != [] {
      var n := |sources| - 1;
      assert SourcesOf(j, sources)[..n] == SourcesOf(j, sources[..n]);
      SumOverSources(j, sources[..n], f, g);
    }
  }

  // Appending line j and its source rows leaves the older lines' sums alone.
  lemma {:induction false} NewRowsSum(pos: seq<Po>, poLines: seq<PoLine>, line: PoLine, rows: seq<Source>,
          sources: seq<SourceRequest>)
    requires forall i :: 0 <= i < |rows| ==> rows[i].poLine < |poLines|
    requires line.po < |pos| && pos[line.po].status != PoCancelled
    ensures var all := rows + SourcesOf(|poLines|, sources);
      && (forall l: nat :: 
            Sum(all, LiveOn(pos, poLines + [line], l)) == Sum(rows, LiveOn(pos, poLines, l)) + Sum(sources, Taking(l)))
      && (forall i: nat :: i < |poLines| ==> Sum(all, Into(i)) == Sum(rows, Into(i)))
      && Sum(all, Into(|poLines|)) == Sum(sources, QuantityOf())
  {
    var j := |poLines|;
    var added := SourcesOf(j, sources);
    forall l: nat
      ensures Sum(rows + added, LiveOn(pos, poLines + [line], l))
           == Sum(rows, LiveOn(pos, poLines, l)) + Sum(sources, Taking(l))
    {
      SumConcat(rows, added, LiveOn(pos, poLines + [line], l));
      SumAlike(rows, rows, LiveOn(pos, poLines + [line], l), LiveOn(pos, poLines, l));
      SumOverSources(j, sources, LiveOn(pos, poLines + [line], l), Taking(l));
    }
    forall i: nat | i < j ensures Sum(rows + added, Into(i)) == Sum(rows, Into(i)) {
      SumConcat(rows, added, Into(i));
      SumZero(added, Into(i));
    }
    SumConcat(rows, added, Into(j));
    SumAlike(rows, rows, Into(j), x => 0);
    SumZero(rows, x => 0);
    SumOverSources(j, sources, Into(j), QuantityOf());
  }

  // An item the prechecks let through: sources of approved requisitions adding up to the ordered quantity.
  predicate ItemFits(prs: seq<Pr>, lines: map<nat, PrLine>, item: ItemRequest) {
    && item.ordered > 0 && item.price >= 0 && Sum(item.sources, QuantityOf()) == item.ordered
    && (forall x :: x in item.sources ==>
          x.prLine in lines && lines[x.prLine].pr < |prs| && prs[lines[x.prLine].pr].status == PrApproved)
  }

  lemma {:induction false} WriteItemRows(prs: seq<Pr>, w: Writing, item: ItemRequest, lines2: map<nat, PrLine>,
          line: PoLine)
    requires forall i :: 0 <= i < |w.sources| ==> SourceFits(prs, w.lines, w.poLines, w.sources[i])
    requires forall i, j :: 0 <= i < j < |w.sources| ==> !SamePair(w.sources[i], w.sources[j])
    requires ItemFits(prs, w.lines, item) && NoRepeats(item.sources)
    requires lines2.Keys == w.lines.Keys && forall l :: l in lines2 ==> lines2[l].pr == w.lines[l].pr
    ensures var rows := w.sources + SourcesOf(|w.poLines|, item.sources);
      && (forall i :: 0 <= i < |rows| ==> SourceFits(prs, lines2, w.poLines + [line], rows[i]))
      && (forall i, j :: 0 <= i < j < |rows| ==> !SamePair(rows[i], rows[j]))
  {
    var old0, rows := |w.sources|, w.sources + SourcesOf(|w.poLines|, item.sources);
    forall i | 0 <= i < |rows| ensures SourceFits(prs, lines2, w.poLines + [line], rows[i]) {
      if i < old0 {
        assert SourceFits(prs, w.lines, w.poLines, w.sources[i]);
      } else {
        assert item.sources[i - old0] in item.sources;
      }
    }
    forall i, j | 0 <= i < j < |rows| ensures !SamePair(rows[i], rows[j]) {
      if j < old0 {
        assert !SamePair(w.sources[i], w.sources[j]);
      } else if i < old0 {
        assert SourceFits(prs, w.lines, w.poLines, w.sources[i]);
      }
    }
  }

  lemma {:induction false} WriteItemKeepsSources(prs: seq<Pr>, pos: seq<Po>, po: nat, w: Writing, item: ItemRequest)
    requires SourcesFit(prs, w.lines, pos, w.poLines, w.sources)
    requires po < |pos| && pos[po].status != PoCancelled && ItemFits(prs, w.lines, item)
    requires WriteItem(po, w, item).Ok?
    ensures var r := WriteItem(po, w, item).value; SourcesFit(prs, r.lines, pos, r.poLines, r.sources)
  {
    hide Sum, Convert, Bears;
    var r, line := WriteItem(po, w, item).value, NewLine(po, item);
    ConvertMeans(w.lines, item.sources);
    WriteItemRows(prs, w, item, r.lines, line);
    forall i | 0 <= i < |w.sources| ensures w.sources[i].poLine < |w.poLines| {
      assert SourceFits(prs, w.lines, w.poLines, w.sources[i]);
    }
    NewRowsSum(pos, w.poLines, line, w.sources, item.sources);
    forall l | l in r.lines ensures r.lines[l].converted == Sum(r.sources, LiveOn(pos, r.poLines, l)) {}
    forall j | 0 <= j < |r.poLines| ensures r.poLines[j].ordered == Sum(r.sources, Into(j)) {}
  }

  // ---------------------------------------------------------------------------------------------
  // Writing a whole order
  // ---------------------------------------------------------------------------------------------

  // Lines of touched requisitions convert more, within what was requested; everything else stays.
  predicate ConvertsAt(was: map<nat, PrLine>, lines: map<nat, PrLine>, touched: set<nat>, l: nat)
    requires l in was && l in lines
  {
    && lines[l] == was[l].(converted := lines[l].converted)
    && 0 <= lines[l].converted <= lines[l].requested
    && (was[l].pr !in touched ==> lines[l] == was[l])
  }

  ghost predicate OnlyConverts(was: map<nat, PrLine>, lines: map<nat, PrLine>, touched: set<nat>) {
    lines.Keys == was.Keys && forall l :: l in was ==> ConvertsAt(was, lines, touched, l)
  }

  // Order `po` only gains lines, none of them received.
  predicate Extends(base: seq<PoLine>, poLines: seq<PoLine>, po: nat) {
    && |base| <= |poLines| && poLines[..|base|] == base
    && (forall j :: |base| <= j < |poLines| ==> poLines[j].po == po && poLines[j].received == 0)
  }

  // All new source rows feed new lines.
  predicate ExtendsSources(base: seq<Source>, sources: seq<Source>, first: nat) {
    && |base| <= |sources| && sources[..|base|] == base
    && (forall i :: |base| <= i < |sources| ==> sources[i].poLine >= first)
  }

  // The tables before the first item of an order.
  datatype Start = Start(lines: map<nat, PrLine>, poLines: seq<PoLine>, sources: seq<Source>)

  ghost predicate WritingFits(prs: seq<Pr>, pos: seq<Po>, po: nat, start: Start, touched: set<nat>, w: Writing) {
    && SourcesFit(prs, w.lines, pos, w.poLines, w.sources)
    && OnlyConverts(start.lines, w.lines, touched)
    && Extends(start.poLines, w.poLines, po)
    && ExtendsSources(start.sources, w.sources, |start.poLines|)
    && (forall j :: 0 <= j < |w.poLines| ==> PoLineFits(pos, w.poLines[j]))
    && w.total == Sum(w.poLines, AmountOf(po))
  }

  ghost predicate AllApproved(prs: seq<Pr>, touched: set<nat>) {
    forall p :: p in touched ==> p < |prs| && prs[p].status == PrApproved
  }

  ghost predicate Touches(lines: map<nat, PrLine>, touched: set<nat>, item: ItemRequest) {
    forall x :: x in item.sources ==> x.prLine in lines && lines[x.prLine].pr in touched
  }

  lemma {:induction false} ConvertedByTouches(was: map<nat, PrLine>, lines: map<nat, PrLine>, touched: set<nat>,
          item: ItemRequest)
    requires OnlyConverts(was, lines, touched) && Touches(was, touched, item)
    requires forall l :: l in lines ==> Bears(lines, item.sources, l)
    ensures OnlyConverts(was, ConvertedBy(lines, item.sources), touched)
  {
    var lines2 := ConvertedBy(lines, item.sources);
    forall l | l in was ensures ConvertsAt(was, lines2, touched, l) {
      assert ConvertsAt(was, lines, touched, l);
      SumNonNegative(item.sources, Taking(l));
      if was[l].pr !in touched { SumZero(item.sources, Taking(l)); }
    }
  }

  lemma {:induction false} WriteItemConverts(was: map<nat, PrLine>, touched: set<nat>, po: nat, w: Writing,
          item: ItemRequest)
    requires OnlyConverts(was, w.lines, touched) && Touches(was, touched, item)
    ensures forall x :: x in item.sources ==> x.prLine in w.lines && w.lines[x.prLine].pr == was[x.prLine].pr
    ensures WriteItem(po, w, item).Ok? ==> OnlyConverts(was, WriteItem(po, w, item).value.lines, touched)
  {
    forall x | x in item.sources ensures x.prLine in w.lines && w.lines[x.prLine].pr == was[x.prLine].pr {
      assert ConvertsAt(was, w.lines, touched, x.prLine);
    }
    ConvertMeans(w.lines, item.sources);
    if WriteItem(po, w, item).Ok? { ConvertedByTouches(was, w.lines, touched, item); }
  }

  lemma {:induction false} WriteItemAppends(pos: seq<Po>, po: nat, start: Start, w: Writing, item: ItemRequest)
    requires Extends(start.poLines, w.poLines, po) && w.total == Sum(w.poLines, AmountOf(po))
    requires ExtendsSources(start.sources, w.sources, |start.poLines|)
    requires forall j :: 0 <= j < |w.poLines| ==> PoLineFits(pos, w.poLines[j])
    requires po < |pos| && item.ordered > 0 && item.price >= 0
    requires forall x :: x in item.sources ==> x.prLine in w.lines
    requires WriteItem(po, w, item).Ok?
    ensures var r := WriteItem(po, w, item).value;
      && Extends(start.poLines, r.poLines, po) && r.total == Sum(r.poLines, AmountOf(po))
      && ExtendsSources(start.sources, r.sources, |start.poLines|)
      && forall j :: 0 <= j < |r.poLines| ==> PoLineFits(pos, r.poLines[j])
  {
    SumSnoc(w.poLines, NewLine(po, item), AmountOf(po));
  }

  lemma {:induction false} WriteItemFits(prs: seq<Pr>, pos: seq<Po>, po: nat, start: Start, touched: set<nat>,
          w: Writing, m: Master, item: ItemRequest)
    requires WritingFits(prs, pos, po, start, touched, w) && AllApproved(prs, touched)
    requires po < |pos| && pos[po].status != PoCancelled
    requires Touches(start.lines, touched, item) && ItemsOk(m, [item]).Ok?
    ensures forall x :: x in item.sources ==> x.prLine in w.lines
    ensures WriteItem(po, w, item).Ok? ==> WritingFits(prs, pos, po, start, touched, WriteItem(po, w, item).value)
    ensures WriteItem(po, w, item).Ok? ==> |WriteItem(po, w, item).value.poLines| == |w.poLines| + 1
  {
    WriteItemConverts(start.lines, touched, po, w, item);
    if WriteItem(po, w, item).Ok? {
      assert ItemFits(prs, w.lines, item);
      WriteItemKeepsSources(prs, pos, po, w, item);
      WriteItemAppends(pos, po, start, w, item);
    }
  }

  lemma {:induction false} ItemsOkFront(m: Master, items: seq<ItemRequest>)
    requires items != [] && ItemsOk(m, items).Ok?
    ensures ItemsOk(m, [items[0]]).Ok? && ItemsOk(m, items[1..]).Ok?
  {
  }

  lemma {:induction false} WriteItemsFits(prs: seq<Pr>, pos: seq<Po>, po: nat, start: Start, touched: set<nat>,
          w: Writing, m: Master, items: seq<ItemRequest>)
    requires WritingFits(prs, pos, po, start, touched, w) && AllApproved(prs, touched)
    requires po < |pos| && pos[po].status != PoCancelled
    requires forall i :: 0 <= i < |items| ==> Touches(start.lines, touched, items[i])
    requires ItemsOk(m, items).Ok?
    requires SourcesExist(w.lines, items)
    ensures WriteItems(po, w, items).Ok? ==>
      WritingFits(prs, pos, po, start, touched, WriteItems(po, w, items).value)
    ensures WriteItems(po, w, items).Ok? ==> |WriteItems(po, w, items).value.poLines| == |w.poLines| + |items|
    decreases |items|
  {
    hide WriteItem, WritingFits, AllApproved, Touches;
    if items != [] {
      ItemsOkFront(m, items);
      WriteItemFits(prs, pos, po, start, touched, w, m, items[0]);
      if WriteItem(po, w, items[0]).Ok? {
        WriteItemsFits(prs, pos, po, start, touched, WriteItem(po, w, items[0]).value, m, items[1..]);
      }
    }
  }

  // ---------------------------------------------------------------------------------------------
  // Creating an order keeps the chain
  // ---------------------------------------------------------------------------------------------

  ghost predicate OrdersOk(db: Db) {
    SourcesFit(db.prs, db.prLines, db.pos, db.poLines, db.sources) && OrdersFit(db.pos, db.poLines)
  }

  lemma {:induction false} HeaderKeepsSources(prs: seq<Pr>, lines: map<nat, PrLine>, pos: seq<Po>,
          poLines: seq<PoLine>, sources: seq<Source>, po: Po)
    requires SourcesFit(prs, lines, pos, poLines, sources)
    requires forall j :: 0 <= j < |poLines| ==> PoLineFits(pos, poLines[j])
    ensures SourcesFit(prs, lines, pos + [po], poLines, sources)
  {
    forall l | l in lines ensures lines[l].converted == Sum(sources, LiveOn(pos + [po], poLines, l)) {
      forall x | x in sources ensures LiveOn(pos, poLines, l)(x) == LiveOn(pos + [po], poLines, l)(x) {
        if x.poLine < |poLines| { assert PoLineFits(pos, poLines[x.poLine]); }
      }
      SumEqual(sources, LiveOn(pos, poLines, l), LiveOn(pos + [po], poLines, l));
    }
  }

  lemma {:induction false} NewOrderFits(pos: seq<Po>, poLines: seq<PoLine>, pos2: seq<Po>, poLines2: seq<PoLine>)
    requires OrdersFit(pos, poLines) && |pos2| == |pos| + 1 && pos2[..|pos|] == pos
    requires Extends(poLines, poLines2, |pos|) && |poLines2| > |poLines|
    requires forall j :: 0 <= j < |poLines2| ==> PoLineFits(pos2, poLines2[j])
    requires pos2[|pos|].total == Sum(poLines2, AmountOf(|pos|))
    ensures OrdersFit(pos2, poLines2)
  {
    var tail := poLines2[|poLines|..];
    assert poLines2 == poLines + tail;
    forall o | 0 <= o < |pos2| ensures OrderFits(pos2, poLines2, o) {
      if o < |pos| {
        assert OrderFits(pos, poLines, o) && pos2[o] == pos[o];
        SumConcat(poLines, tail, AmountOf(o));
        SumZero(tail, AmountOf(o));
        var line :| line in poLines && line.po == o;
        assert line in poLines2;
      } else {
        assert poLines2[|poLines|] in poLines2;
      }
    }
  }

  function StartOf(db: Db): Start {
    Start(db.prLines, db.poLines, db.sources)
  }

  // Before the first item, the new header is in place and nothing is written.
  lemma {:induction false} WritingStarts(db: Db, po: Po, touched: set<nat>)
    requires OrdersOk(db) && LinesFit(db.prs, db.prLines, db.nextPrLine)
    ensures WritingFits(db.prs, db.pos + [po], |db.pos|, StartOf(db), touched,
                        Writing(db.prLines, db.poLines, db.sources, 0))
  {
    HeaderKeepsSources(db.prs, db.prLines, db.pos, db.poLines, db.sources, po);
    forall line | line in db.poLines ensures AmountOf(|db.pos|)(line) == 0 {
      var j :| 0 <= j < |db.poLines| && db.poLines[j] == line;
      assert PoLineFits(db.pos, db.poLines[j]);
    }
    SumZero(db.poLines, AmountOf(|db.pos|));
    forall j | 0 <= j < |db.poLines| ensures PoLineFits(db.pos + [po], db.poLines[j]) {
      assert PoLineFits(db.pos, db.poLines[j]);
    }
    forall l | l in db.prLines ensures ConvertsAt(db.prLines, db.prLines, touched, l) {
      assert LineFits(db.prLines[l]);
    }
  }

  lemma {:induction false} PrecheckTouches(db: Db, m: Master, supplier: int, items: seq<ItemRequest>)
    requires Precheck(db, m, supplier, items).Ok?
    ensures items != [] && SourcesExist(db.prLines, items) && ItemsOk(m, items).Ok?
    ensures AllApproved(db.prs, TouchedPrs(db.prLines, items))
    ensures forall i :: 0 <= i < |items| ==> Touches(db.prLines, TouchedPrs(db.prLines, items), items[i])
  {
    var touched := TouchedPrs(db.prLines, items);
    forall i | 0 <= i < |items| ensures Touches(db.prLines, touched, items[i]) { assert items[i] in items; }
  }

  // What the writing of a successful create_po amounts to.
  lemma {:induction false} CreatedPoWrites(db: Db, user: User, m: Master, supplier: int, items: seq<ItemRequest>,
          pos2: seq<Po>, w: Writing)
    requires OrdersOk(db) && LinesFit(db.prs, db.prLines, db.nextPrLine)
    requires Precheck(db, m, supplier, items).Ok?
    requires WriteItems(|db.pos|, Writing(db.prLines, db.poLines, db.sources, 0), items) == Ok(w)
    requires pos2 == db.pos + [Po(user.id, PoDraft, SumAmounts([w.total]), 1)]
    ensures WritingFits(db.prs, pos2, |db.pos|, StartOf(db), TouchedPrs(db.prLines, items), w)
    ensures OrdersFit(pos2, w.poLines)
  {
    var touched := TouchedPrs(db.prLines, items);
    WritingStarts(db, pos2[|db.pos|], touched);
    PrecheckTouches(db, m, supplier, items);
    WriteItemsFits(db.prs, pos2, |db.pos|, StartOf(db), touched, Writing(db.prLines, db.poLines, db.sources, 0), m,
                   items);
    SumAmountsExact([w.total]);
    SumSnoc([], w.total, ITSELF);
    NewOrderFits(db.pos, db.poLines, pos2, w.poLines);
  }

  // Flips only exchange Approved and Converted.
  ghost predicate OnlyFlips(prs: seq<Pr>, prs2: seq<Pr>) {
    && |prs2| == |prs|
    && (forall p :: 0 <= p < |prs| ==>
          prs2[p] == prs[p].(status := prs2[p].status) && Interchangeable(prs[p].status, prs2[p].status))
  }

  lemma {:induction false} FlipsKeepSources(prs: seq<Pr>, lines: map<nat, PrLine>, pos: seq<Po>, poLines: seq<PoLine>,
          sources: seq<Source>, prs2: seq<Pr>)
    requires SourcesFit(prs, lines, pos, poLines, sources) && OnlyFlips(prs, prs2)
    ensures SourcesFit(prs2, lines, pos, poLines, sources)
  {
    forall i | 0 <= i < |sources| ensures SourceFits(prs2, lines, poLines, sources[i]) {
      assert SourceFits(prs, lines, poLines, sources[i]);
    }
    SourcesKept(prs, lines, pos, poLines, sources, prs2, lines);
  }

  lemma {:induction false} ConversionsKeepLines(prs: seq<Pr>, lines: map<nat, PrLine>, next: nat, prs2: seq<Pr>,
          lines2: map<nat, PrLine>, touched: set<nat>)
    requires LinesFit(prs, lines, next) && OnlyFlips(prs, prs2) && OnlyConverts(lines, lines2, touched)
    ensures LinesFit(prs2, lines2, next)
  {
    forall l | l in lines2
      ensures LineFits(lines2[l]) && l < next && lines2[l].pr < |prs2| && l in prs2[lines2[l].pr].items
    {
      assert LineFits(lines[l]) && ConvertsAt(lines, lines2, touched, l);
    }
    forall p | 0 <= p < |prs2| ensures HeaderFits(prs2, lines2, p) {
      assert HeaderFits(prs, lines, p);
      forall i | i in prs[p].items ensures i in lines2 && lines2[i].pr == p && lines2[i].amount == lines[i].amount {
        assert ConvertsAt(lines, lines2, touched, i);
      }
      HeaderKept(prs, lines, prs2, lines2, p);
    }
  }

  lemma {:induction false} UntouchedStay(lines: map<nat, PrLine>, lines2: map<nat, PrLine>, touched: set<nat>, p: nat)
    requires OnlyConverts(lines, lines2, touched) && p !in touched
    ensures SameLinesOf(lines, lines2, p)
  {
    forall l | l in lines ensures lines2[l].pr == lines[l].pr && (lines[l].pr == p ==> lines2[l] == lines[l]) {
      assert ConvertsAt(lines, lines2, touched, l);
    }
  }

  lemma {:induction false} FlipsFitStatuses(prs: seq<Pr>, lines: map<nat, PrLine>, lines2: map<nat, PrLine>,
          touched: set<nat>)
    requires StatusesFit(prs, lines) && OnlyConverts(lines, lines2, touched) && AllApproved(prs, touched)
    ensures StatusesFit(FlipToConverted(prs, lines2, touched), lines2)
    ensures OnlyFlips(prs, FlipToConverted(prs, lines2, touched))
  {
    var prs2 := FlipToConverted(prs, lines2, touched);
    forall p | 0 <= p < |prs2| ensures StatusFits(prs2[p].status, lines2, p) {
      assert StatusFits(prs[p].status, lines, p);
      if p !in touched {
        UntouchedStay(lines, lines2, touched, p);
        StatusKept(prs[p].status, lines, lines2, p);
      }
    }
  }

  // What a new order does to the other tables, seen from outside.
  ghost predicate PoAdds(db: Db, after: Db) {
    && Extends(db.poLines, after.poLines, |db.pos|) && ExtendsSources(db.sources, after.sources, |db.poLines|)
    && OnlyFlips(db.prs, after.prs)
    && after.prLines.Keys == db.prLines.Keys
    && (forall l :: l in db.prLines ==> after.prLines[l] == db.prLines[l].(converted := after.prLines[l].converted))
  }

  // What a successful create_po consists of.
  ghost predicate IsOrder(db: Db, after: Db, user: User, items: seq<ItemRequest>, w: Writing) {
    && SourcesExist(db.prLines, items)
    && after == db.(pos := db.pos + [Po(user.id, PoDraft, SumAmounts([w.total]), 1)],
                    poLines := w.poLines, sources := w.sources, prLines := w.lines,
                    prs := FlipToConverted(db.prs, w.lines, TouchedPrs(db.prLines, items)),
                    audit := db.audit + [Audit(PoCreated, |db.pos|)])
    && AllApproved(db.prs, TouchedPrs(db.prLines, items))
    && WritingFits(db.prs, after.pos, |db.pos|, StartOf(db), TouchedPrs(db.prLines, items), w)
    && OrdersFit(after.pos, w.poLines)
  }

  lemma {:induction false} CreatedPoIs(db: Db, user: User, m: Master, supplier: int, items: seq<ItemRequest>,
          after: Db) returns (w: Writing)
    requires OrdersOk(db) && LinesFit(db.prs, db.prLines, db.nextPrLine)
    requires CreatedPo(db, user, m, supplier, items) == Ok(after)
    ensures IsOrder(db, after, user, items, w)
  {
    w := WriteItems(|db.pos|, Writing(db.prLines, db.poLines, db.sources, 0), items).value;
    CreatedPoWrites(db, user, m, supplier, items, after.pos, w);
    PrecheckTouches(db, m, supplier, items);
  }

  lemma {:induction false} OrderKeepsRequisitions(db: Db, after: Db, user: User, items: seq<ItemRequest>, w: Writing)
    requires RequisitionsOk(db) && IsOrder(db, after, user, items, w)
    ensures RequisitionsOk(after)
  {
    var touched := TouchedPrs(db.prLines, items);
    FlipsFitStatuses(db.prs, db.prLines, w.lines, touched);
    ConversionsKeepLines(db.prs, db.prLines, db.nextPrLine, after.prs, w.lines, touched);
    FlipsKeepTrails(db.prs, db.approvals, db.audit, after.prs, Audit(PoCreated, |db.pos|));
  }

  lemma {:induction false} OrderKeepsOrders(db: Db, after: Db, user: User, items: seq<ItemRequest>, w: Writing)
    requires StatusesFit(db.prs, db.prLines) && IsOrder(db, after, user, items, w)
    ensures OrdersOk(after) && PoAdds(db, after)
  {
    var touched := TouchedPrs(db.prLines, items);
    FlipsFitStatuses(db.prs, db.prLines, w.lines, touched);
    FlipsKeepSources(db.prs, w.lines, after.pos, w.poLines, w.sources, after.prs);
    forall l | l in db.prLines ensures after.prLines[l] == db.prLines[l].(converted := after.prLines[l].converted) {
      assert ConvertsAt(db.prLines, w.lines, touched, l);
    }
  }

  lemma {:induction false} CreatedPoKeepsRules(db: Db, user: User, m: Master, supplier: int, items: seq<ItemRequest>,
          after: Db)
    requires RequisitionsOk(db) && OrdersOk(db)
    requires CreatedPo(db, user, m, supplier, items) == Ok(after)
    ensures RequisitionsOk(after) && OrdersOk(after) && PoAdds(db, after)
  {
    var w := CreatedPoIs(db, user, m, supplier, items, after);
    OrderKeepsRequisitions(db, after, user, items, w);
    OrderKeepsOrders(db, after, user, items, w);
  }

  // ---------------------------------------------------------------------------------------------
  // Giving back
  // ---------------------------------------------------------------------------------------------

  function GivingTo(l: nat): Source -> int {
    (x: Source) => if x.prLine == l then x.quantity else 0
  }

  function ReturnedBy(lines: map<nat, PrLine>, rows: seq<Source>): (r: map<nat, PrLine>)
    ensures r.Keys == lines.Keys
  {
    map l | l in lines :: lines[l].(converted := lines[l].converted - Sum(rows, GivingTo(l)))
  }

  lemma {:induction false} GivingFront(rows: seq<Source>, l: nat)
    requires rows != [] && forall x :: x in rows ==> x.quantity > 0
    ensures Sum(rows, GivingTo(l)) == GivingTo(l)(rows[0]) + Sum(rows[1..], GivingTo(l))
    ensures Sum(rows[1..], GivingTo(l)) >= 0
  {
    SumFront(rows, GivingTo(l));
    SumNonNegative(rows[1..], GivingTo(l));
  }

  function Returned(lines: map<nat, PrLine>, x: Source): (r: map<nat, PrLine>)
    requires x.prLine in lines
    ensures r.Keys == lines.Keys
  {
    lines[x.prLine := lines[x.prLine].(converted := lines[x.prLine].converted - x.quantity)]
  }

  lemma {:induction false} GiveBackStep(lines: map<nat, PrLine>, rows: seq<Source>, l: nat)
    requires rows != [] && forall x :: x in rows ==> x.prLine in lines && x.quantity > 0
    requires l in lines && Sum(rows, GivingTo(l)) <= lines[l].converted
    ensures Sum(rows[1..], GivingTo(l)) <= Returned(lines, rows[0])[l].converted
    ensures ReturnedBy(Returned(lines, rows[0]), rows[1..])[l] == ReturnedBy(lines, rows)[l]
    ensures l == rows[0].prLine ==> rows[0].quantity <= lines[l].converted
  {
    GivingFront(rows, l);
  }

  // Guarded decrements succeed whenever every line holds the total asked back from it, and take exactly that.
  lemma {:induction false} GiveBackMeans(lines: map<nat, PrLine>, rows: seq<Source>)
    requires forall x :: x in rows ==> x.prLine in lines && x.quantity > 0
    requires forall l :: l in lines ==> Sum(rows, GivingTo(l)) <= lines[l].converted
    ensures GiveBack(lines, rows) == Ok(ReturnedBy(lines, rows))
  {
    if rows == [] {
      assert ReturnedBy(lines, rows) == lines;
    } else {
      hide Sum, GivingTo, ReturnedBy;
      var next := Returned(lines, rows[0]);
      forall l | l in lines
        ensures Sum(rows[1..], GivingTo(l)) <= next[l].converted
        ensures ReturnedBy(next, rows[1..])[l] == ReturnedBy(lines, rows)[l]
        ensures l == rows[0].prLine ==> rows[0].quantity <= lines[l].converted
      {
        GiveBackStep(lines, rows, l);
      }
      GiveBackMeans(next, rows[1..]);
      assert ReturnedBy(next, rows[1..]) == ReturnedBy(lines, rows);
    }
  }

  // ---------------------------------------------------------------------------------------------
  // Cancelling and confirming an order keep the chain
  // ---------------------------------------------------------------------------------------------

  function FeedingOn(poLines: seq<PoLine>, po: nat, l: nat): Source -> int {
    (x: Source) => if FeedsPo(poLines, po, x) && x.prLine == l then x.quantity else 0
  }

  // What a requisition line has converted is what the order being cancelled holds plus what other live orders hold.
  lemma {:induction false} LiveSplits(prs: seq<Pr>, lines: map<nat, PrLine>, pos: seq<Po>, poLines: seq<PoLine>,
          sources: seq<Source>, po: nat, pos2: seq<Po>, l: nat)
    requires SourcesFit(prs, lines, pos, poLines, sources) && l in lines
    requires forall j :: 0 <= j < |poLines| ==> PoLineFits(pos, poLines[j])
    requires po < |pos| && pos[po].status != PoCancelled
    requires |pos2| == |pos| && pos2[po].status == PoCancelled && forall o :: 0 <= o < |pos| && o != po ==>
      pos2[o] == pos[o]
    ensures var rows := Select(sources, FeedingPo(poLines, po));
            lines[l].converted == Sum(rows, GivingTo(l)) + Sum(sources, LiveOn(pos2, poLines, l))
    ensures Sum(sources, LiveOn(pos2, poLines, l)) >= 0
  {
    forall x | x in sources
      ensures x.quantity > 0 && LiveOn(pos, poLines, l)(x) == FeedingOn(poLines, po, l)(x) + LiveOn(pos2, poLines, l)(x)
    {
      var i :| 0 <= i < |sources| && sources[i] == x;
      assert SourceFits(prs, lines, poLines, sources[i]) && PoLineFits(pos, poLines[x.poLine]);
    }
    SumSplit(sources, LiveOn(pos, poLines, l), FeedingOn(poLines, po, l), LiveOn(pos2, poLines, l));
    SumSelect(sources, FeedingPo(poLines, po), GivingTo(l), FeedingOn(poLines, po, l));
    SumNonNegative(sources, LiveOn(pos2, poLines, l));
  }

  predicate Cancelling(pos: seq<Po>, po: nat, pos2: seq<Po>) {
    && po < |pos| && pos[po].status != PoCancelled && |pos2| == |pos| && pos2[po].status == PoCancelled
    && pos2[po].total == pos[po].total && forall o :: 0 <= o < |pos| && o != po ==> pos2[o] == pos[o]
  }

  lemma {:induction false} FeedingRowsFit(prs: seq<Pr>, lines: map<nat, PrLine>, poLines: seq<PoLine>,
          sources: seq<Source>, po: nat)
    requires forall i :: 0 <= i < |sources| ==> SourceFits(prs, lines, poLines, sources[i])
    ensures forall x :: x in Select(sources, FeedingPo(poLines, po)) ==> x.prLine in lines && x.quantity > 0
  {
    forall x | x in Select(sources, FeedingPo(poLines, po)) ensures x.prLine in lines && x.quantity > 0 {
      var i :| 0 <= i < |sources| && sources[i] == x;
      assert SourceFits(prs, lines, poLines, sources[i]);
    }
  }

  // The guard against taking back more than was converted never fires: cancelling always gives back exactly
  // what the order had converted.
  lemma {:induction false} GiveBackNeverFails(prs: seq<Pr>, lines: map<nat, PrLine>, pos: seq<Po>,
          poLines: seq<PoLine>, sources: seq<Source>, po: nat, pos2: seq<Po>)
    requires SourcesFit(prs, lines, pos, poLines, sources) && Cancelling(pos, po, pos2)
    requires forall j :: 0 <= j < |poLines| ==> PoLineFits(pos, poLines[j])
    ensures var rows := Select(sources, FeedingPo(poLines, po));
      && (forall x :: x in rows ==> x.prLine in lines)
      && GiveBack(lines, rows) == Ok(ReturnedBy(lines, rows))
      && SourcesFit(prs, ReturnedBy(lines, rows), pos2, poLines, sources)
  {
    var rows := Select(sources, FeedingPo(poLines, po));
    FeedingRowsFit(prs, lines, poLines, sources, po);
    forall l | l in lines
      ensures Sum(rows, GivingTo(l)) <= lines[l].converted
      ensures ReturnedBy(lines, rows)[l].converted == Sum(sources, LiveOn(pos2, poLines, l))
    {
      LiveSplits(prs, lines, pos, poLines, sources, po, pos2, l);
    }
    GiveBackMeans(lines, rows);
    forall i | 0 <= i < |sources| ensures SourceFits(prs, ReturnedBy(lines, rows), poLines, sources[i]) {
      assert SourceFits(prs, lines, poLines, sources[i]);
    }
  }

  lemma {:induction false} ReturnsOnlyConvert(lines: map<nat, PrLine>, rows: seq<Source>)
    requires forall x :: x in rows ==> x.prLine in lines && x.quantity > 0
    requires forall l :: l in lines ==> LineFits(lines[l]) && Sum(rows, GivingTo(l)) <= lines[l].converted
    ensures OnlyConverts(lines, ReturnedBy(lines, rows), PrsOf(lines, rows))
    ensures forall p :: p in PrsOf(lines, rows) ==>
      !FullyConverted(ReturnedBy(lines, rows), p) && !NothingConverted(lines, p)
  {
    var lines2, touched := ReturnedBy(lines, rows), PrsOf(lines, rows);
    forall l | l in lines ensures ConvertsAt(lines, lines2, touched, l) {
      SumNonNegative(rows, GivingTo(l));
      if lines[l].pr !in touched { SumZero(rows, GivingTo(l)); }
    }
    forall p | p in touched ensures !FullyConverted(lines2, p) && !NothingConverted(lines, p) {
      var x :| x in rows && lines[x.prLine].pr == p;
      var i :| 0 <= i < |rows| && rows[i] == x;
      SumCovers(rows, GivingTo(x.prLine), i);
      assert LineFits(lines[x.prLine]);
    }
  }

  lemma {:induction false} FlipsBackFitStatuses(prs: seq<Pr>, lines: map<nat, PrLine>, lines2: map<nat, PrLine>,
          touched: set<nat>)
    requires StatusesFit(prs, lines) && OnlyConverts(lines, lines2, touched)
    requires forall p :: p in touched ==> !FullyConverted(lines2, p) && !NothingConverted(lines, p)
    ensures StatusesFit(FlipBackToApproved(prs, lines2, touched), lines2)
    ensures OnlyFlips(prs, FlipBackToApproved(prs, lines2, touched))
  {
    var prs2 := FlipBackToApproved(prs, lines2, touched);
    forall p | 0 <= p < |prs2| ensures StatusFits(prs2[p].status, lines2, p) {
      assert StatusFits(prs[p].status, lines, p);
      if p !in touched {
        UntouchedStay(lines, lines2, touched, p);
        StatusKept(prs[p].status, lines, lines2, p);
      }
    }
  }

  // What a successful cancel_po consists of.
  ghost predicate IsCancellation(db: Db, after: Db, po: nat, rows: seq<Source>) {
    && Cancelling(db.pos, po, after.pos) && rows == Select(db.sources, FeedingPo(db.poLines, po))
    && (forall x :: x in rows ==> x.prLine in db.prLines)
    && after == db.(pos := after.pos, prLines := ReturnedBy(db.prLines, rows),
                    prs := FlipBackToApproved(db.prs, ReturnedBy(db.prLines, rows), PrsOf(db.prLines, rows)),
                    audit := db.audit + [Audit(PoWasCancelled, po)])
  }

  lemma {:induction false} CancelledPoIs(db: Db, user: User, po: nat, version: nat, after: Db)
    requires OrdersOk(db) && OrderKeys(db.pos, db.poLines, db.sources, db.prLines)
    requires CancelledPo(db, user, po, version) == Ok(after)
    ensures IsCancellation(db, after, po, Select(db.sources, FeedingPo(db.poLines, po)))
  {
    GiveBackNeverFails(db.prs, db.prLines, db.pos, db.poLines, db.sources, po, after.pos);
  }

  // Cancelling only lowers conversions, and leaves every requisition it returns to short of full.
  lemma {:induction false} CancellationReturns(db: Db, after: Db, po: nat, rows: seq<Source>)
    requires LinesFit(db.prs, db.prLines, db.nextPrLine) && OrdersOk(db) && IsCancellation(db, after, po, rows)
    ensures OnlyConverts(db.prLines, after.prLines, PrsOf(db.prLines, rows))
    ensures forall p :: p in PrsOf(db.prLines, rows) ==>
      !FullyConverted(after.prLines, p) && !NothingConverted(db.prLines, p)
  {
    FeedingRowsFit(db.prs, db.prLines, db.poLines, db.sources, po);
    forall l | l in db.prLines ensures Sum(rows, GivingTo(l)) <= db.prLines[l].converted {
      LiveSplits(db.prs, db.prLines, db.pos, db.poLines, db.sources, po, after.pos, l);
    }
    ReturnsOnlyConvert(db.prLines, rows);
  }

  lemma {:induction false} CancellationKeepsRequisitions(db: Db, after: Db, po: nat, rows: seq<Source>)
    requires RequisitionsOk(db) && IsCancellation(db, after, po, rows)
    requires OnlyConverts(db.prLines, after.prLines, PrsOf(db.prLines, rows))
    requires forall p :: p in PrsOf(db.prLines, rows) ==>
      !FullyConverted(after.prLines, p) && !NothingConverted(db.prLines, p)
    ensures RequisitionsOk(after) && OnlyFlips(db.prs, after.prs)
  {
    var touched := PrsOf(db.prLines, rows);
    FlipsBackFitStatuses(db.prs, db.prLines, after.prLines, touched);
    ConversionsKeepLines(db.prs, db.prLines, db.nextPrLine, after.prs, after.prLines, touched);
    FlipsKeepTrails(db.prs, db.approvals, db.audit, after.prs, Audit(PoWasCancelled, po));
  }

  lemma {:induction false} CancellationKeepsOrders(db: Db, after: Db, po: nat, rows: seq<Source>)
    requires OrdersOk(db) && IsCancellation(db, after, po, rows) && OnlyFlips(db.prs, after.prs)
    ensures OrdersOk(after)
  {
    GiveBackNeverFails(db.prs, db.prLines, db.pos, db.poLines, db.sources, po, after.pos);
    FlipsKeepSources(db.prs, after.prLines, after.pos, db.poLines, db.sources, after.prs);
    SameOrdersFit(db.pos, db.poLines, after.pos, db.poLines);
  }

  lemma {:induction false} CancelledPoKeepsRules(db: Db, user: User, po: nat, version: nat, after: Db)
    requires RequisitionsOk(db) && OrdersOk(db) && OrderKeys(db.pos, db.poLines, db.sources, db.prLines)
    requires CancelledPo(db, user, po, version) == Ok(after)
    ensures RequisitionsOk(after) && OrdersOk(after)
  {
    var rows := Select(db.sources, FeedingPo(db.poLines, po));
    CancelledPoIs(db, user, po, version, after);
    CancellationReturns(db, after, po, rows);
    CancellationKeepsRequisitions(db, after, po, rows);
    CancellationKeepsOrders(db, after, po, rows);
  }

  lemma {:induction false} ConfirmedPoKeepsRules(db: Db, user: User, po: nat, version: nat)
    requires RequisitionsOk(db) && OrdersOk(db) && ConfirmedPo(db, user, po, version).Ok?
    ensures RequisitionsOk(ConfirmedPo(db, user, po, version).value)
    ensures OrdersOk(ConfirmedPo(db, user, po, version).value)
  {
    hide SourcesFit, OrdersFit, TrailsFit, LinesFit, StatusesFit;
    var after := ConfirmedPo(db, user, po, version).value;
    FlipsKeepTrails(db.prs, db.approvals, db.audit, db.prs, Audit(PoWasConfirmed, po));
    SameOrdersKeepSources(db.prs, db.prLines, db.pos, db.poLines, db.sources, after.pos, db.poLines);
    SameOrdersFit(db.pos, db.poLines, after.pos, db.poLines);
  }
}
