/** Purchase orders: converting approved requisition lines by compare-and-set, and giving them back on cancel. */
module Orders {
  import opened Sums
  import opened Money
  import opened Tables

  type Positive = q: int | q > 0 witness 1

  datatype SourceRequest = SourceRequest(prLine: nat, quantity: Positive)
  datatype ItemRequest = ItemRequest(material: int, ordered: int, price: int, sources: seq<SourceRequest>)

  predicate MayTurn(from: PoStatus, to: PoStatus) {
    match from
    case PoDraft => to == PoConfirmed || to == PoCancelled
    case PoConfirmed => to == PoCancelled
    case _ => false
  }

  predicate MayHandle(po: Po, user: User) {
    user.isAdmin || po.buyer == user.id
  }

  // ---------------------------------------------------------------------------------------------
  // Checks before anything is written
  // ---------------------------------------------------------------------------------------------

  predicate SourcesExist(lines: map<nat, PrLine>, items: seq<ItemRequest>) {
    forall i :: i in items ==> forall x :: x in i.sources ==> x.prLine in lines
  }

  function TouchedPrs(lines: map<nat, PrLine>, items: seq<ItemRequest>): (r: set<nat>)
    requires SourcesExist(lines, items)
  {
    set i, x | i in items && x in i.sources :: lines[x.prLine].pr
  }

  function QuantityOf(): SourceRequest -> int {
    (x: SourceRequest) => x.quantity
  }

  function ItemsOk(m: Master, items: seq<ItemRequest>): Result<()> {
    if items == [] then Ok(()) else
      var item := items[0];
      var _ :- Active(m.materials, item.material, PoItemNotFound, MasterDataDisabled);
      if item.ordered <= 0 || item.price < 0 then Err(ValidationError)
      else if Sum(item.sources, QuantityOf()) != item.ordered then Err(PoSourceQuantityMismatch)
      else ItemsOk(m, items[1..])
  }

  function Precheck(db: Db, m: Master, supplier: int, items: seq<ItemRequest>): Result<()> {
    if items == [] then Err(PoEmptyItems) else
      var _ :- Active(m.suppliers, supplier, NotFound, PoSupplierDisabled);
      if !SourcesExist(db.prLines, items) then Err(PrItemNotFound)
      else if exists p :: p in TouchedPrs(db.prLines, items) && (p >= |db.prs| || db.prs[p].status != PrApproved)
      then Err(PrInvalidStatusTransition)
      else ItemsOk(m, items)
  }

  // ---------------------------------------------------------------------------------------------
  // Conversion
  // ---------------------------------------------------------------------------------------------

  // One compare-and-set per source row, in order.
  function Convert(lines: map<nat, PrLine>, sources: seq<SourceRequest>): Result<map<nat, PrLine>>
    requires forall x :: x in sources ==> x.prLine in lines
  {
    if sources == [] then Ok(lines) else
      var x, line := sources[0], lines[sources[0].prLine];
      if line.converted + x.quantity > line.requested then Err(PrItemConvertExceeded)
      else Convert(lines[x.prLine := line.(converted := line.converted + x.quantity)], sources[1..])
  }

  // UNIQUE(po_item_id, pr_item_id)
  predicate NoRepeats(sources: seq<SourceRequest>) {
    forall i, j :: 0 <= i < j < |sources| ==> sources[i].prLine != sources[j].prLine
  }

  lemma {:induction false} ConvertKeepsKeys(lines: map<nat, PrLine>, sources: seq<SourceRequest>)
    requires forall x :: x in sources ==> x.prLine in lines
    ensures Convert(lines, sources).Ok? ==> Convert(lines, sources).value.Keys == lines.Keys
  {
    if sources != [] {
      var x, line := sources[0], lines[sources[0].prLine];
      ConvertKeepsKeys(lines[x.prLine := line.(converted := line.converted + x.quantity)], sources[1..]);
    }
  }

  function NewLine(po: nat, item: ItemRequest): PoLine {
    PoLine(po, item.material, item.ordered, 0, item.price, LineAmount(item.ordered, item.price))
  }

  function SourcesOf(poLine: nat, sources: seq<SourceRequest>): (r: seq<Source>)
    ensures |r| == |sources|
  {
    seq(|sources|, i requires 0 <= i < |sources| => Source(poLine, sources[i].prLine, sources[i].quantity))
  }

  // The tables an order's items are written to, and the running total of their rounded amounts.
  datatype Writing = Writing(lines: map<nat, PrLine>, poLines: seq<PoLine>, sources: seq<Source>, total: int)

  // One item: its line, its conversions, its source rows.
  function WriteItem(po: nat, w: Writing, item: ItemRequest): (r: Result<Writing>)
    requires forall x :: x in item.sources ==> x.prLine in w.lines
    ensures r.Ok? ==> r.value.lines.Keys == w.lines.Keys
  {
    var lines :- Convert(w.lines, item.sources);
    ConvertKeepsKeys(w.lines, item.sources);
    if !NoRepeats(item.sources) then Err(DuplicateKey) else
      Ok(Writing(lines, w.poLines + [NewLine(po, item)], w.sources + SourcesOf(|w.poLines|, item.sources),
                 w.total + NewLine(po, item).amount))
  }

  function WriteItems(po: nat, w: Writing, items: seq<ItemRequest>): Result<Writing>
    requires SourcesExist(w.lines, items)
    decreases |items|
  {
    if items == [] then Ok(w) else
      var next :- WriteItem(po, w, items[0]);
      WriteItems(po, next, items[1..])
  }

  // ---------------------------------------------------------------------------------------------
  // Header flips driven by quantities
  // ---------------------------------------------------------------------------------------------

  predicate FullyConverted(lines: map<nat, PrLine>, p: nat) {
    forall l :: l in lines && lines[l].pr == p ==> lines[l].converted >= lines[l].requested
  }

  function FlipToConverted(prs: seq<Pr>, lines: map<nat, PrLine>, touched: set<nat>): (r: seq<Pr>)
    ensures |r| == |prs|
  {
    seq(|prs|, p requires 0 <= p < |prs| =>
      if p in touched && prs[p].status == PrApproved && FullyConverted(lines, p)
      then prs[p].(status := PrConverted) else prs[p])
  }

  function FlipBackToApproved(prs: seq<Pr>, lines: map<nat, PrLine>, touched: set<nat>): (r: seq<Pr>)
    ensures |r| == |prs|
  {
    seq(|prs|, p requires 0 <= p < |prs| =>
      if p in touched && prs[p].status == PrConverted && !FullyConverted(lines, p)
      then prs[p].(status := PrApproved) else prs[p])
  }

  // ---------------------------------------------------------------------------------------------
  // The services, as specified
  // ---------------------------------------------------------------------------------------------

  ghost function CreatedPo(db: Db, user: User, m: Master, supplier: int, items: seq<ItemRequest>): Result<Db> {
    var _ :- Precheck(db, m, supplier, items);
    var po := |db.pos|;
    var w :- WriteItems(po, Writing(db.prLines, db.poLines, db.sources, 0), items);
    Ok(db.(pos := db.pos + [Po(user.id, PoDraft, SumAmounts([w.total]), 1)],
           poLines := w.poLines, sources := w.sources, prLines := w.lines,
           prs := FlipToConverted(db.prs, w.lines, TouchedPrs(db.prLines, items)),
           audit := db.audit + [Audit(PoCreated, po)]))
  }

  predicate HasLines(poLines: seq<PoLine>, po: nat) {
    exists l :: l in poLines && l.po == po
  }

  ghost function ConfirmedPo(db: Db, user: User, po: nat, version: nat): Result<Db> {
    if po >= |db.pos| then Err(PoNotFound)
    else if !MayTurn(db.pos[po].status, PoConfirmed) then Err(PoInvalidStatusTransition)
    else if db.pos[po].version != version then Err(PoVersionConflict)
    else if !MayHandle(db.pos[po], user) then Err(PermissionDenied)
    else if !HasLines(db.poLines, po) then Err(PoEmptyItems)
    else if exists l :: l in db.poLines && l.po == po && l.price <= 0 then Err(PoUnitPriceRequired)
    else Ok(db.(pos := db.pos[po := db.pos[po].(status := PoConfirmed, version := version + 1)],
                audit := db.audit + [Audit(PoWasConfirmed, po)]))
  }

  predicate FeedsPo(poLines: seq<PoLine>, po: nat, x: Source) {
    x.poLine < |poLines| && poLines[x.poLine].po == po
  }

  function FeedingPo(poLines: seq<PoLine>, po: nat): Source -> bool {
    (x: Source) => FeedsPo(poLines, po, x)
  }

  // One guarded decrement per source row; the guard failing would be a data anomaly.
  function GiveBack(lines: map<nat, PrLine>, rows: seq<Source>): Result<map<nat, PrLine>>
    requires forall x :: x in rows ==> x.prLine in lines
  {
    if rows == [] then Ok(lines) else
      var x, line := rows[0], lines[rows[0].prLine];
      if line.converted < x.quantity then Err(Conflict)
      else GiveBack(lines[x.prLine := line.(converted := line.converted - x.quantity)], rows[1..])
  }

  function PrsOf(lines: map<nat, PrLine>, rows: seq<Source>): set<nat>
    requires forall x :: x in rows ==> x.prLine in lines
  {
    set x | x in rows :: lines[x.prLine].pr
  }

  ghost function CancelledPo(db: Db, user: User, po: nat, version: nat): Result<Db>
    requires OrderKeys(db.pos, db.poLines, db.sources, db.prLines)
  {
    if po >= |db.pos| then Err(PoNotFound)
    else if !MayTurn(db.pos[po].status, PoCancelled) then Err(PoInvalidStatusTransition)
    else if db.pos[po].version != version then Err(PoVersionConflict)
    else if !MayHandle(db.pos[po], user) then Err(PermissionDenied)
    else if exists l :: l in db.poLines && l.po == po && l.received > 0 then Err(PoCancelHasReceipt)
    else
      var rows := Select(db.sources, FeedingPo(db.poLines, po));
      var lines :- GiveBack(db.prLines, rows);
      Ok(db.(pos := db.pos[po := db.pos[po].(status := PoCancelled, version := version + 1)],
             prLines := lines,
             prs := FlipBackToApproved(db.prs, lines, PrsOf(db.prLines, rows)),
             audit := db.audit + [Audit(PoWasCancelled, po)]))
  }

  // ---------------------------------------------------------------------------------------------
  // The same services, step by step in a session
  // ---------------------------------------------------------------------------------------------

  method CheckItems(m: Master, items: seq<ItemRequest>) returns (r: Result<()>)
    ensures r == ItemsOk(m, items)
  {
    for k := 0 to |items|
      invariant ItemsOk(m, items) == ItemsOk(m, items[k..])
    {
      assert items[k..][1..] == items[k + 1..];
      var item := items[k];
      var material := Active(m.materials, item.material, PoItemNotFound, MasterDataDisabled);
      if material.Err? { return material; }
      if item.ordered <= 0 { return Err(ValidationError); }
      if item.price < 0 { return Err(ValidationError); }
      var total := 0;
      for j := 0 to |item.sources|
        invariant total == Sum(item.sources[..j], QuantityOf())
      {
        total := total + item.sources[j].quantity;
        assert item.sources[..j + 1] == item.sources[..j] + [item.sources[j]];
        SumSnoc(item.sources[..j], item.sources[j], QuantityOf());
      }
      assert item.sources[..|item.sources|] == item.sources;
      if total != item.ordered { return Err(PoSourceQuantityMismatch); }
    }
    return Ok(());
  }

  // The compare-and-set loop over one line's sources, adding the source rows as it goes.
  method ConvertLine(lines: map<nat, PrLine>, poLine: nat, sources: seq<SourceRequest>)
    returns (r: Result<map<nat, PrLine>>, rows: seq<Source>)
    requires forall x :: x in sources ==> x.prLine in lines
    ensures r == Convert(lines, sources)
    ensures r.Ok? ==> rows == SourcesOf(poLine, sources)
  {
    var now: map<nat, PrLine> := lines;
    rows := [];
    for k := 0 to |sources|
      invariant forall x :: x in sources ==> x.prLine in now
      invariant Convert(lines, sources) == Convert(now, sources[k..])
      invariant rows == SourcesOf(poLine, sources[..k])
    {
      assert sources[k..][1..] == sources[k + 1..];
      var x := sources[k];
      assert x in sources;
      if now[x.prLine].converted + x.quantity > now[x.prLine].requested { return Err(PrItemConvertExceeded), rows; }
      now := now[x.prLine := now[x.prLine].(converted := now[x.prLine].converted + x.quantity)];
      rows := rows + [Source(poLine, x.prLine, x.quantity)];
    }
    return Ok(now), rows;
  }

  // The flip loop over the referenced requisitions, in whatever order the set yields them.
  method FlipConverted(s: Session, touched: set<nat>)
    modifies s
    ensures s.db == old(s.db).(prs := FlipToConverted(old(s.db.prs), s.db.prLines, touched))
  {
    ghost var before := s.db;
    var rest := touched;
    assert FlipToConverted(before.prs, before.prLines, {}) == before.prs;
    while rest != {}
      invariant rest <= touched
      invariant s.db == before.(prs := FlipToConverted(before.prs, before.prLines, touched - rest))
      decreases rest
    {
      var p :| p in rest;
      ghost var done := touched - rest;
      rest := rest - {p};
      if p < |s.db.prs| && s.db.prs[p].status == PrApproved && FullyConverted(s.db.prLines, p) {
        s.db := s.db.(prs := s.db.prs[p := s.db.prs[p].(status := PrConverted)]);
      }
      assert touched - rest == done + {p};
      assert s.db.prs == FlipToConverted(before.prs, before.prLines, done + {p});
    }
  }

  method FlipBack(s: Session, touched: set<nat>)
    modifies s
    ensures s.db == old(s.db).(prs := FlipBackToApproved(old(s.db.prs), s.db.prLines, touched))
  {
    ghost var before := s.db;
    var rest := touched;
    assert FlipBackToApproved(before.prs, before.prLines, {}) == before.prs;
    while rest != {}
      invariant rest <= touched
      invariant s.db == before.(prs := FlipBackToApproved(before.prs, before.prLines, touched - rest))
      decreases rest
    {
      var p :| p in rest;
      ghost var done := touched - rest;
      rest := rest - {p};
      if p < |s.db.prs| && s.db.prs[p].status == PrConverted && !FullyConverted(s.db.prLines, p) {
        s.db := s.db.(prs := s.db.prs[p := s.db.prs[p].(status := PrApproved)]);
      }
      assert touched - rest == done + {p};
      assert s.db.prs == FlipBackToApproved(before.prs, before.prLines, done + {p});
    }
  }

  // One item: its line, its conversions, its source rows.
  method WriteOne(po: nat, w: Writing, item: ItemRequest) returns (r: Result<Writing>)
    requires forall x :: x in item.sources ==> x.prLine in w.lines
    ensures r == WriteItem(po, w, item)
  {
    var line := PoLine(po, item.material, item.ordered, 0, item.price, LineAmount(item.ordered, item.price));
    var converted, rows := ConvertLine(w.lines, |w.poLines|, item.sources);
    if converted.Err? { return Err(converted.error); }
    if !NoRepeats(item.sources) { return Err(DuplicateKey); }
    return Ok(Writing(converted.value, w.poLines + [line], w.sources + rows, w.total + line.amount));
  }

  lemma {:induction false} WriteItemsNext(po: nat, w: Writing, items: seq<ItemRequest>, k: nat)
    requires SourcesExist(w.lines, items) && k < |items|
    ensures items[k] in items && SourcesExist(w.lines, items[k..])
    ensures WriteItems(po, w, items[k..])
      == match WriteItem(po, w, items[k])
         case Ok(next) => WriteItems(po, next, items[k + 1..])
         case Err(e) => Err(e)
  {
    assert items[k..][0] == items[k] && items[k..][1..] == items[k + 1..];
  }

  // All items in turn; the first refusal ends it.
  method WriteAll(po: nat, start: Writing, items: seq<ItemRequest>) returns (r: Result<Writing>)
    requires SourcesExist(start.lines, items)
    ensures r == WriteItems(po, start, items)
  {
    var w := start;
    assert items[0..] == items;
    for k := 0 to |items|
      invariant w.lines.Keys == start.lines.Keys
      invariant WriteItems(po, start, items) == WriteItems(po, w, items[k..])
    {
      WriteItemsNext(po, w, items, k);
      var next := WriteOne(po, w, items[k]);
      if next.Err? { return next; }
      w := next.value;
    }
    return Ok(w);
  }

  method CheckOrder(db: Db, m: Master, supplier: int, items: seq<ItemRequest>) returns (r: Result<()>)
    ensures r == Precheck(db, m, supplier, items)
  {
    if items == [] { return Err(PoEmptyItems); }
    var active := Active(m.suppliers, supplier, NotFound, PoSupplierDisabled);
    if active.Err? { return active; }
    if !SourcesExist(db.prLines, items) { return Err(PrItemNotFound); }
    if exists p :: p in TouchedPrs(db.prLines, items) && (p >= |db.prs| || db.prs[p].status != PrApproved) {
      return Err(PrInvalidStatusTransition);
    }
    r := CheckItems(m, items);
  }

  method CreatePo(s: Session, user: User, m: Master, supplier: int, items: seq<ItemRequest>) returns (reply: Result<()>)
    modifies s
    ensures Settles(CreatedPo(old(s.db), user, m, supplier, items), old(s.db), s.db, reply)
  {
    hide WriteItems, FlipToConverted, ItemsOk;
    var saved := s.db;
    var checked := CheckOrder(s.db, m, supplier, items);
    if checked.Err? { return checked; }
    var touched := TouchedPrs(s.db.prLines, items);
    var po := |s.db.pos|;
    s.db := s.db.(pos := s.db.pos + [Po(user.id, PoDraft, 0, 1)]);
    var w := WriteAll(po, Writing(s.db.prLines, s.db.poLines, s.db.sources, 0), items);
    if w.Err? {
      s.Rollback(saved);
      return Err(w.error);
    }
    s.db := s.db.(prLines := w.value.lines, poLines := w.value.poLines, sources := w.value.sources,
                  pos := s.db.pos[po := s.db.pos[po].(total := SumAmounts([w.value.total]))]);
    FlipConverted(s, touched);
    s.db := s.db.(audit := s.db.audit + [Audit(PoCreated, po)]);
    return Ok(());
  }

  method ConfirmPo(s: Session, user: User, po: nat, version: nat) returns (reply: Result<()>)
    modifies s
    ensures Settles(ConfirmedPo(old(s.db), user, po, version), old(s.db), s.db, reply)
  {
    if po >= |s.db.pos| { return Err(PoNotFound); }
    var row := s.db.pos[po];
    if !MayTurn(row.status, PoConfirmed) { return Err(PoInvalidStatusTransition); }
    if row.version != version { return Err(PoVersionConflict); }
    if !MayHandle(row, user) { return Err(PermissionDenied); }
    if !HasLines(s.db.poLines, po) { return Err(PoEmptyItems); }
    for j := 0 to |s.db.poLines|
      invariant forall i :: 0 <= i < j && s.db.poLines[i].po == po ==> s.db.poLines[i].price > 0
      invariant s.db == old(s.db)
    {
      if s.db.poLines[j].po == po && s.db.poLines[j].price <= 0 {
        assert s.db.poLines[j] in s.db.poLines;
        return Err(PoUnitPriceRequired);
      }
    }
    s.db := s.db.(pos := s.db.pos[po := row.(status := PoConfirmed, version := row.version + 1)],
                  audit := s.db.audit + [Audit(PoWasConfirmed, po)]);
    return Ok(());
  }

  method ReturnSources(lines: map<nat, PrLine>, rows: seq<Source>) returns (r: Result<map<nat, PrLine>>)
    requires forall x :: x in rows ==> x.prLine in lines
    ensures r == GiveBack(lines, rows)
  {
    var now: map<nat, PrLine> := lines;
    for k := 0 to |rows|
      invariant forall x :: x in rows ==> x.prLine in now
      invariant GiveBack(lines, rows) == GiveBack(now, rows[k..])
    {
      assert rows[k..][1..] == rows[k + 1..];
      var x := rows[k];
      assert x in rows;
      if now[x.prLine].converted < x.quantity { return Err(Conflict); }
      now := now[x.prLine := now[x.prLine].(converted := now[x.prLine].converted - x.quantity)];
    }
    return Ok(now);
  }

  method CancelPo(s: Session, user: User, po: nat, version: nat) returns (reply: Result<()>)
    requires OrderKeys(s.db.pos, s.db.poLines, s.db.sources, s.db.prLines)
    modifies s
    ensures Settles(CancelledPo(old(s.db), user, po, version), old(s.db), s.db, reply)
  {
    var saved := s.db;
    if po >= |s.db.pos| { return Err(PoNotFound); }
    var row := s.db.pos[po];
    if !MayTurn(row.status, PoCancelled) { return Err(PoInvalidStatusTransition); }
    if row.version != version { return Err(PoVersionConflict); }
    if !MayHandle(row, user) { return Err(PermissionDenied); }
    if exists l :: l in s.db.poLines && l.po == po && l.received > 0 { return Err(PoCancelHasReceipt); }
    s.db := s.db.(pos := s.db.pos[po := row.(status := PoCancelled, version := row.version + 1)]);
    var rows := Select(s.db.sources, FeedingPo(s.db.poLines, po));
    var touched := PrsOf(s.db.prLines, rows);
    var returned := ReturnSources(s.db.prLines, rows);
    if returned.Err? {
      s.Rollback(saved);
      return Err(returned.error);
    }
    s.db := s.db.(prLines := returned.value);
    FlipBack(s, touched);
    s.db := s.db.(audit := s.db.audit + [Audit(PoWasCancelled, po)]);
    return Ok(());
  }
}
