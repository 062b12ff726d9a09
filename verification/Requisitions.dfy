/** Purchase requisitions: lines edited in place, money recomputed by the server, one approval workflow. */
module Requisitions {
  import opened Sums
  import opened Money
  import opened Tables

  datatype LineRequest = LineRequest(id: Option<nat>, material: int, requested: int, price: int)

  // The central transition map.
  predicate MayTurn(from: PrStatus, to: PrStatus) {
    match from
    case PrDraft => to == PrPending || to == PrCancelled
    case PrPending => to == PrApproved || to == PrRejected
    case PrRejected => to == PrDraft
    case PrApproved => to == PrCancelled
    case _ => false
  }

  predicate MayManage(pr: Pr, user: User) {
    pr.applicant == user.id || user.isAdmin
  }

  // May this user decide on the requisition? The answer says whether it is an administrator's override.
  function Approver(pr: Pr, user: User, m: Master): Result<bool> {
    if !user.active then Err(UserDisabled)
    else if pr.department !in m.departments || !m.departments[pr.department] then Err(MasterDataDisabled)
    else if user.isAdmin then Ok(true)
    else if (pr.department, user.id) !in m.managers then Err(PrNotApprover)
    else Ok(false)
  }

  // The manager of an active department, or an administrator in his place.
  predicate MayDecide(department: int, user: User, m: Master) {
    user.active && IsActive(m.departments, department) && (user.isAdmin || (department, user.id) in m.managers)
  }

  function MaterialOk(m: Master, material: int): Result<()> {
    Active(m.materials, material, PrItemNotFound, MasterDataDisabled)
  }

  // ---------------------------------------------------------------------------------------------
  // Replacing the lines of a requisition
  // ---------------------------------------------------------------------------------------------

  datatype Synced = Synced(lines: map<nat, PrLine>, next: nat, added: seq<nat>, seen: set<nat>)

  function SyncLine(m: Master, pr: nat, existing: seq<nat>, st: Synced, req: LineRequest): Result<Synced>
    requires forall i :: i in existing ==> i in st.lines
  {
    if req.id.Some? && req.id.value !in existing then Err(PrItemNotFound) else
      var _ :- MaterialOk(m, req.material);
      if req.id.Some? then
        var i := req.id.value;
        var line := st.lines[i].(material := req.material, requested := req.requested, price := req.price);
        Ok(st.(lines := st.lines[i := line], seen := st.seen + {i}))
      else
        var line := PrLine(pr, req.material, req.requested, 0, req.price, 0);
        Ok(Synced(st.lines[st.next := line], st.next + 1, st.added + [st.next], st.seen))
  }

  function SyncLines(m: Master, pr: nat, existing: seq<nat>, st: Synced, reqs: seq<LineRequest>): Result<Synced>
    requires forall i :: i in existing ==> i in st.lines
    decreases |reqs|
  {
    if reqs == [] then Ok(st) else
      var next :- SyncLine(m, pr, existing, st, reqs[0]);
      SyncLines(m, pr, existing, next, reqs[1..])
  }

  function Among(ids: set<nat>): nat -> bool {
    (i: nat) => i in ids
  }

  // What the payload leaves of the requisition: its named lines, then the new ones.
  function ItemsAfter(existing: seq<nat>, st: Synced): seq<nat> {
    Select(existing, Among(st.seen)) + st.added
  }

  function LinesAfter(existing: seq<nat>, st: Synced): map<nat, PrLine> {
    st.lines - (set i | i in existing && i !in st.seen)
  }

  // A line the server accepts, and its amount.
  predicate Sellable(line: PrLine) {
    line.requested > 0 && line.price >= 0
  }

  function Priced(line: PrLine): PrLine {
    line.(amount := LineAmount(line.requested, line.price))
  }

  function Repriced(lines: map<nat, PrLine>, items: seq<nat>): (r: map<nat, PrLine>)
    ensures r.Keys == lines.Keys
  {
    map l | l in lines :: if l in items then Priced(lines[l]) else lines[l]
  }

  function PriceIn(lines: map<nat, PrLine>): nat -> int {
    (i: nat) => if i in lines then LineAmount(lines[i].requested, lines[i].price) else 0
  }

  function AmountIn(lines: map<nat, PrLine>): nat -> int {
    (i: nat) => if i in lines then lines[i].amount else 0
  }

  // Recompute every listed line and the header total.
  function Recomputed(lines: map<nat, PrLine>, items: seq<nat>): Result<(map<nat, PrLine>, int)>
    requires forall i :: i in items ==> i in lines
  {
    if exists i :: i in items && !Sellable(lines[i]) then Err(ValidationError)
    else Ok((Repriced(lines, items), SumAmounts([Sum(items, PriceIn(lines))])))
  }

  predicate Distinct(items: seq<nat>) {
    forall i, j :: 0 <= i < j < |items| ==> items[i] != items[j]
  }

  // A line as every service leaves it: positive, priced, its amount rounded from its own quantity.
  predicate LineOk(line: PrLine) {
    Sellable(line) && line == Priced(line)
  }

  lemma {:induction false} RecomputedTotal(lines: map<nat, PrLine>, items: seq<nat>)
    requires forall i :: i in items ==> i in lines
    requires Recomputed(lines, items).Ok?
    ensures Recomputed(lines, items).value.1 == Sum(items, AmountIn(Repriced(lines, items)))
  {
    SumEqual(items, PriceIn(lines), AmountIn(Repriced(lines, items)));
    var total := Sum(items, PriceIn(lines));
    SumAmountsExact([total]);
    SumSnoc([], total, ITSELF);
  }

  // ---------------------------------------------------------------------------------------------
  // An edit of the lines, seen from outside
  // ---------------------------------------------------------------------------------------------

  // How far a payload has been synced into the requisition: other lines untouched, named lines keep their
  // conversion, new lines take the next ids with nothing converted.
  ghost predicate Progress(pr: nat, existing: seq<nat>, start: Synced, st: Synced) {
    && start.next <= st.next
    && |st.added| == st.next - start.next
    && (forall k :: 0 <= k < |st.added| ==> st.added[k] == start.next + k)
    && (forall l :: l in start.lines ==>
          && l in st.lines
          && (l !in existing ==> st.lines[l] == start.lines[l])
          && st.lines[l].pr == start.lines[l].pr && st.lines[l].converted == start.lines[l].converted)
    && (forall l :: l in st.lines ==> l in start.lines || start.next <= l < st.next)
    && (forall l :: start.next <= l < st.next ==> l in st.lines && st.lines[l].pr == pr && st.lines[l].converted == 0)
    && (forall l :: l in st.seen ==> l in existing)
  }

  lemma {:induction false} SyncLineProgress(m: Master, pr: nat, existing: seq<nat>, start: Synced, st: Synced,
          req: LineRequest)
    requires forall i :: i in existing ==> i in start.lines
    requires forall l :: l in start.lines ==> l < start.next
    requires Progress(pr, existing, start, st)
    requires SyncLine(m, pr, existing, st, req).Ok?
    ensures Progress(pr, existing, start, SyncLine(m, pr, existing, st, req).value)
  {
  }

  lemma {:induction false} SyncLinesProgress(m: Master, pr: nat, existing: seq<nat>, start: Synced, st: Synced,
          reqs: seq<LineRequest>)
    requires forall i :: i in existing ==> i in start.lines
    requires forall l :: l in start.lines ==> l < start.next
    requires Progress(pr, existing, start, st)
    requires SyncLines(m, pr, existing, st, reqs).Ok?
    ensures Progress(pr, existing, start, SyncLines(m, pr, existing, st, reqs).value)
    decreases |reqs|
  {
    if reqs != [] {
      SyncLineProgress(m, pr, existing, start, st, reqs[0]);
      SyncLinesProgress(m, pr, existing, start, SyncLine(m, pr, existing, st, reqs[0]).value, reqs[1..]);
    }
  }

  lemma {:induction false} SelectKeepsDistinct(s: seq<nat>, p: nat -> bool)
    requires Distinct(s)
    ensures Distinct(Select(s, p))
  {
    if s != [] { SelectKeepsDistinct(s[..|s| - 1], p); }
  }

  lemma {:induction false} DistinctConcat(a: seq<nat>, b: seq<nat>, border: nat)
    requires Distinct(a) && Distinct(b)
    requires forall i :: 0 <= i < |a| ==> a[i] < border
    requires forall i :: 0 <= i < |b| ==> b[i] >= border
    ensures Distinct(a + b)
  {
  }

  // An edit of requisition `pr`, seen from the outside: other lines are untouched, kept lines keep their
  // conversion, the remaining lines are new.
  ghost predicate LinesCarryOver(was: map<nat, PrLine>, next: nat, pr: nat, existing: seq<nat>, e: Edit) {
    && next <= e.next
    && (forall l :: l in was && l !in existing ==> l in e.lines && e.lines[l] == was[l])
    && (forall l :: l in e.lines ==> l < e.next && (l in was || l >= next))
    && (forall l :: l in e.lines && l in was ==> e.lines[l].pr == was[l].pr && e.lines[l].converted == was[l].converted)
    && (forall l :: l in e.lines && l !in was ==> e.lines[l].pr == pr && e.lines[l].converted == 0)
  }

  ghost predicate ItemsFit(was: map<nat, PrLine>, existing: seq<nat>, e: Edit) {
    && Distinct(e.items)
    && (forall l :: l in e.items ==> l in e.lines && LineOk(e.lines[l]) && (l in existing || l !in was))
    && (forall l :: l in e.lines && (l in existing || l !in was) ==> l in e.items)
    && e.total == Sum(e.items, AmountIn(e.lines))
  }

  lemma {:induction false} SyncedItems(pr: nat, existing: seq<nat>, start: Synced, st: Synced)
    requires forall i :: i in existing ==> i in start.lines
    requires forall l :: l in start.lines ==> l < start.next
    requires Progress(pr, existing, start, st)
    ensures forall l :: l in ItemsAfter(existing, st) <==> (l in existing && l in st.seen) || start.next <= l < st.next
    ensures forall l :: l in ItemsAfter(existing, st) ==> l in LinesAfter(existing, st)
    ensures Distinct(existing) ==> Distinct(ItemsAfter(existing, st))
  {
    var kept := Select(existing, Among(st.seen));
    forall l ensures l in st.added <==> start.next <= l < st.next {
      if start.next <= l < st.next { assert st.added[l - start.next] == l; }
    }
    if Distinct(existing) {
      SelectKeepsDistinct(existing, Among(st.seen));
      forall k | 0 <= k < |kept| ensures kept[k] < start.next { assert kept[k] in kept; }
      DistinctConcat(kept, st.added, start.next);
    }
  }

  datatype Edit = Edit(lines: map<nat, PrLine>, items: seq<nat>, next: nat, total: int)

  // Replace the lines of requisition p by the payload, then recompute its amounts.
  function Edited(m: Master, lines: map<nat, PrLine>, next: nat, p: nat, existing: seq<nat>,
          reqs: seq<LineRequest>): Result<Edit>
    requires forall i :: i in existing ==> i in lines
    requires forall l :: l in lines ==> l < next
  {
    var start := Synced(lines, next, [], {});
    var st :- SyncLines(m, p, existing, start, reqs);
    SyncLinesProgress(m, p, existing, start, start, reqs);
    SyncedItems(p, existing, start, st);
    var r :- Recomputed(LinesAfter(existing, st), ItemsAfter(existing, st));
    Ok(Edit(r.0, ItemsAfter(existing, st), st.next, r.1))
  }

  lemma {:induction false} ProgressCarriesOver(pr: nat, existing: seq<nat>, start: Synced, st: Synced, e: Edit)
    requires forall i :: i in existing ==> i in start.lines
    requires forall l :: l in start.lines ==> l < start.next
    requires Progress(pr, existing, start, st)
    requires e.next == st.next
    requires e.lines == Repriced(LinesAfter(existing, st), e.items)
    requires forall l :: l in e.items <==> (l in existing && l in st.seen) || start.next <= l < st.next
    ensures LinesCarryOver(start.lines, start.next, pr, existing, e)
  {
  }

  lemma {:induction false} ProgressFitsItems(pr: nat, existing: seq<nat>, start: Synced, st: Synced, e: Edit)
    requires forall i :: i in existing ==> i in start.lines
    requires forall l :: l in start.lines ==> l < start.next
    requires Progress(pr, existing, start, st)
    requires forall l :: l in e.items ==> l in LinesAfter(existing, st) && Sellable(LinesAfter(existing, st)[l])
    requires e.lines == Repriced(LinesAfter(existing, st), e.items)
    requires forall l :: l in e.items <==> (l in existing && l in st.seen) || start.next <= l < st.next
    ensures forall l :: l in e.items ==> l in e.lines && LineOk(e.lines[l]) && (l in existing || l !in start.lines)
    ensures forall l :: l in e.lines && (l in existing || l !in start.lines) ==> l in e.items
  {
  }

  lemma {:induction false} EditedFacts(m: Master, lines: map<nat, PrLine>, next: nat, p: nat, existing: seq<nat>,
          reqs: seq<LineRequest>)
    requires forall i :: i in existing ==> i in lines
    requires forall l :: l in lines ==> l < next
    requires Distinct(existing)
    requires Edited(m, lines, next, p, existing, reqs).Ok?
    ensures LinesCarryOver(lines, next, p, existing, Edited(m, lines, next, p, existing, reqs).value)
    ensures ItemsFit(lines, existing, Edited(m, lines, next, p, existing, reqs).value)
  {
    var start := Synced(lines, next, [], {});
    var st := SyncLines(m, p, existing, start, reqs).value;
    SyncLinesProgress(m, p, existing, start, start, reqs);
    SyncedItems(p, existing, start, st);
    RecomputedTotal(LinesAfter(existing, st), ItemsAfter(existing, st));
    var e := Edited(m, lines, next, p, existing, reqs).value;
    ProgressCarriesOver(p, existing, start, st, e);
    ProgressFitsItems(p, existing, start, st, e);
  }

  // ---------------------------------------------------------------------------------------------
  // The services, as specified
  // ---------------------------------------------------------------------------------------------

  // Does a live (not cancelled) order still draw on the requisition?
  predicate IsLive(pos: seq<Po>, poLines: seq<PoLine>, x: Source) {
    x.poLine < |poLines| && poLines[x.poLine].po < |pos| && pos[poLines[x.poLine].po].status != PoCancelled
  }

  predicate HasActivePo(db: Db, p: nat) {
    exists x :: x in db.sources && x.prLine in db.prLines && db.prLines[x.prLine].pr == p && IsLive(db.pos, db.poLines,
                                                                                                    x)
  }

  function MaterialsOk(m: Master, lines: map<nat, PrLine>, items: seq<nat>): Result<()>
    requires forall i :: i in items ==> i in lines
  {
    if items == [] then Ok(()) else
      var _ :- MaterialOk(m, lines[items[0]].material);
      MaterialsOk(m, lines, items[1..])
  }

  // The approver's second look at every line.
  function LinesStillOk(m: Master, lines: map<nat, PrLine>, items: seq<nat>): Result<()>
    requires forall i :: i in items ==> i in lines
  {
    if items == [] then Ok(()) else
      var _ :- MaterialOk(m, lines[items[0]].material);
      if !Sellable(lines[items[0]]) then Err(ValidationError) else LinesStillOk(m, lines, items[1..])
  }

  // Payloads of create carry no line ids.
  function AsNew(reqs: seq<LineRequest>): (r: seq<LineRequest>) {
    seq(|reqs|, i requires 0 <= i < |reqs| => reqs[i].(id := None))
  }

  ghost function CreatedPr(db: Db, user: User, m: Master, reqs: seq<LineRequest>): Result<Db>
    requires RequisitionKeys(db.prs, db.prLines, db.nextPrLine)
  {
    if user.department.None? || user.department.value !in m.departments || !m.departments[user.department.value]
    then Err(ValidationError) else
      var p := |db.prs|;
      var e :- Edited(m, db.prLines, db.nextPrLine, p, [], AsNew(reqs));
      Ok(db.(prs := db.prs + [Pr(user.id, user.department.value, PrDraft, e.items, e.total, 1)],
             prLines := e.lines, nextPrLine := e.next, audit := db.audit + [Audit(PrCreated, p)]))
  }

  ghost function UpdatedPr(db: Db, user: User, m: Master, p: nat, version: nat, reqs: seq<LineRequest>): Result<Db>
    requires RequisitionKeys(db.prs, db.prLines, db.nextPrLine)
  {
    if p >= |db.prs| then Err(PrNotFound) else
      var pr := db.prs[p];
      if !MayManage(pr, user) then Err(PrNotApplicant)
      else if pr.status != PrDraft then Err(PrNotEditable)
      else if pr.version != version then Err(Conflict)
      else
        var e :- Edited(m, db.prLines, db.nextPrLine, p, pr.items, reqs);
        Ok(db.(prs := db.prs[p := pr.(items := e.items, total := e.total, version := version + 1)],
               prLines := e.lines, nextPrLine := e.next, audit := db.audit + [Audit(PrUpdated, p)]))
  }

  ghost function SubmittedPr(db: Db, user: User, m: Master, p: nat): Result<Db>
    requires RequisitionKeys(db.prs, db.prLines, db.nextPrLine)
  {
    if p >= |db.prs| then Err(PrNotFound) else
      var pr := db.prs[p];
      if !MayManage(pr, user) then Err(PrNotApplicant)
      else if !MayTurn(pr.status, PrPending) then Err(PrInvalidStatusTransition)
      else if pr.items == [] then Err(PrEmptyItems)
      else
        var _ :- MaterialsOk(m, db.prLines, pr.items);
        var r :- Recomputed(db.prLines, pr.items);
        Ok(db.(prs := db.prs[p := pr.(status := PrPending, total := r.1, version := pr.version + 1)],
               prLines := r.0, audit := db.audit + [Audit(PrSubmitted, p)]))
  }

  ghost function CancelledPr(db: Db, user: User, p: nat): Result<Db> {
    if p >= |db.prs| then Err(PrNotFound) else
      var pr := db.prs[p];
      if !MayManage(pr, user) then Err(PrNotApplicant)
      else if !MayTurn(pr.status, PrCancelled) then Err(PrInvalidStatusTransition)
      else if pr.status == PrApproved && HasActivePo(db, p) then Err(PrCancelHasActivePo)
      else Ok(db.(prs := db.prs[p := pr.(status := PrCancelled, version := pr.version + 1)],
                  audit := db.audit + [Audit(PrWasCancelled, p)]))
  }

  ghost function ApprovedPr(db: Db, user: User, m: Master, p: nat, version: nat): Result<Db>
    requires RequisitionKeys(db.prs, db.prLines, db.nextPrLine)
  {
    if p >= |db.prs| then Err(PrNotFound) else
      var pr := db.prs[p];
      if !MayTurn(pr.status, PrApproved) then Err(PrInvalidStatusTransition)
      else if pr.version != version then Err(PrVersionConflict)
      else
        var override :- Approver(pr, user, m);
        if pr.items == [] then Err(PrEmptyItems) else
          var _ :- LinesStillOk(m, db.prLines, pr.items);
          var r :- Recomputed(db.prLines, pr.items);
          Ok(db.(prs := db.prs[p := pr.(status := PrApproved, total := r.1, version := version + 1)], prLines := r.0,
                 approvals := db.approvals + [Approval(p, Approve, user.id, override)],
                 audit := db.audit + [Audit(PrWasApproved, p)]))
  }

  ghost function RejectedPr(db: Db, user: User, m: Master, p: nat, version: nat): Result<Db> {
    if p >= |db.prs| then Err(PrNotFound) else
      var pr := db.prs[p];
      if !MayTurn(pr.status, PrRejected) then Err(PrInvalidStatusTransition)
      else if pr.version != version then Err(PrVersionConflict)
      else
        var override :- Approver(pr, user, m);
        Ok(db.(prs := db.prs[p := pr.(status := PrRejected, version := version + 1)],
               approvals := db.approvals + [Approval(p, Reject, user.id, override)],
               audit := db.audit + [Audit(PrWasRejected, p)]))
  }

  ghost function RevisedPr(db: Db, user: User, p: nat, version: nat): Result<Db> {
    if p >= |db.prs| then Err(PrNotFound) else
      var pr := db.prs[p];
      if !MayTurn(pr.status, PrDraft) then Err(PrInvalidStatusTransition)
      else if !MayManage(pr, user) then Err(PrNotApplicant)
      else if pr.version != version then Err(PrVersionConflict)
      else Ok(db.(prs := db.prs[p := pr.(status := PrDraft, version := version + 1)],
                  audit := db.audit + [Audit(PrRevised, p)]))
  }

  // Requisition p moved to another status and its version counts the call; its lines and every other row of every table
  // stay, but for the decisions and the audit row added.
  ghost predicate OnlyTurns(db: Db, after: Db, p: nat, to: PrStatus, decisions: seq<Approval>, action: AuditAction) {
    && p < |db.prs| == |after.prs|
    && after.prs[p] == db.prs[p].(status := to, version := db.prs[p].version + 1)
    && (forall q :: 0 <= q < |db.prs| && q != p ==> after.prs[q] == db.prs[q])
    && after.approvals == db.approvals + decisions && after.audit == db.audit + [Audit(action, p)]
    && after.prLines == db.prLines && after.nextPrLine == db.nextPrLine
    && after.pos == db.pos && after.poLines == db.poLines && after.sources == db.sources
    && after.receipts == db.receipts && after.receiptLines == db.receiptLines
    && after.ledger == db.ledger && after.balances == db.balances && after.counts == db.counts
  }

  // ---------------------------------------------------------------------------------------------
  // The same services, step by step in a session
  // ---------------------------------------------------------------------------------------------

  lemma {:induction false} RepriceNext(lines: map<nat, PrLine>, items: seq<nat>, k: nat)
    requires k < |items| && items[k] in lines
    ensures var before, i := Repriced(lines, items[..k]), items[k];
      && before[i].requested == lines[i].requested && before[i].price == lines[i].price
      && Repriced(lines, items[..k + 1]) == before[i := Priced(before[i])]
      && Sum(items[..k + 1], PriceIn(lines)) == Sum(items[..k], PriceIn(lines)) + Priced(before[i]).amount
  {
    assert items[..k + 1] == items[..k] + [items[k]];
    SumSnoc(items[..k], items[k], PriceIn(lines));
  }

  // _recompute: every line amount in turn, then the header total.
  method Recompute(lines: map<nat, PrLine>, items: seq<nat>) returns (r: Result<(map<nat, PrLine>, int)>)
    requires forall i :: i in items ==> i in lines
    ensures r == Recomputed(lines, items)
  {
    var now, total := lines, 0;
    assert Repriced(lines, []) == lines;
    for k := 0 to |items|
      invariant now == Repriced(lines, items[..k])
      invariant total == Sum(items[..k], PriceIn(lines))
      invariant forall j :: 0 <= j < k ==> items[j] in lines && Sellable(lines[items[j]])
    {
      var i := items[k];
      assert i in items;
      RepriceNext(lines, items, k);
      if now[i].requested <= 0 { return Err(ValidationError); }
      if now[i].price < 0 { return Err(ValidationError); }
      now := now[i := now[i].(amount := LineAmount(now[i].requested, now[i].price))];
      total := total + now[i].amount;
    }
    assert items[..|items|] == items;
    assert forall i :: i in items ==> Sellable(lines[i]);
    return Ok((now, SumAmounts([total])));
  }

  // _sync_items: walk the payload, updating named lines and appending the others, then drop what was not named.
  method SyncItems(m: Master, p: nat, lines: map<nat, PrLine>, next: nat, existing: seq<nat>, reqs: seq<LineRequest>)
    returns (r: Result<(map<nat, PrLine>, seq<nat>, nat)>)
    requires forall i :: i in existing ==> i in lines
    ensures match SyncLines(m, p, existing, Synced(lines, next, [], {}), reqs)
            case Ok(st) => r == Ok((LinesAfter(existing, st), ItemsAfter(existing, st), st.next))
            case Err(e) => r == Err(e)
  {
    var st := Synced(lines, next, [], {});
    for k := 0 to |reqs|
      invariant forall i :: i in existing ==> i in st.lines
      invariant SyncLines(m, p, existing, Synced(lines, next, [], {}), reqs) == SyncLines(m, p, existing, st, reqs[k..])
    {
      var req := reqs[k];
      assert reqs[k..][0] == req && reqs[k..][1..] == reqs[k + 1..];
      if req.id.Some? && req.id.value !in existing { return Err(PrItemNotFound); }
      var material := MaterialOk(m, req.material);
      if material.Err? { return Err(material.error); }
      if req.id.Some? {
        var i := req.id.value;
        var line := st.lines[i].(material := req.material, requested := req.requested, price := req.price);
        st := st.(lines := st.lines[i := line], seen := st.seen + {i});
      } else {
        var line := PrLine(p, req.material, req.requested, 0, req.price, 0);
        st := Synced(st.lines[st.next := line], st.next + 1, st.added + [st.next], st.seen);
      }
    }
    return Ok((LinesAfter(existing, st), ItemsAfter(existing, st), st.next));
  }

  method EditItems(s: Session, m: Master, p: nat, existing: seq<nat>, reqs: seq<LineRequest>) returns (r: Result<Edit>)
    requires forall i :: i in existing ==> i in s.db.prLines
    requires forall l :: l in s.db.prLines ==> l < s.db.nextPrLine
    ensures r == Edited(m, s.db.prLines, s.db.nextPrLine, p, existing, reqs)
  {
    ghost var start := Synced(s.db.prLines, s.db.nextPrLine, [], {});
    var synced := SyncItems(m, p, s.db.prLines, s.db.nextPrLine, existing, reqs);
    if synced.Err? { return Err(synced.error); }
    var (lines, items, next) := synced.value;
    SyncLinesProgress(m, p, existing, start, start, reqs);
    SyncedItems(p, existing, start, SyncLines(m, p, existing, start, reqs).value);
    var repriced := Recompute(lines, items);
    if repriced.Err? { return Err(repriced.error); }
    return Ok(Edit(repriced.value.0, items, next, repriced.value.1));
  }

  method CreatePr(s: Session, user: User, m: Master, reqs: seq<LineRequest>) returns (reply: Result<()>)
    requires RequisitionKeys(s.db.prs, s.db.prLines, s.db.nextPrLine)
    modifies s
    ensures Settles(CreatedPr(old(s.db), user, m, reqs), old(s.db), s.db, reply)
  {
    if user.department.None? || user.department.value !in m.departments || !m.departments[user.department.value] {
      return Err(ValidationError);
    }
    var p := |s.db.prs|;
    var e := EditItems(s, m, p, [], AsNew(reqs));
    if e.Err? { return Err(e.error); }
    var edit := e.value;
    var pr := Pr(user.id, user.department.value, PrDraft, edit.items, edit.total, 1);
    s.db := s.db.(prs := s.db.prs + [pr], prLines := edit.lines, nextPrLine := edit.next,
                  audit := s.db.audit + [Audit(PrCreated, p)]);
    return Ok(());
  }

  method UpdatePr(s: Session, user: User, m: Master, p: nat, version: nat,
          reqs: seq<LineRequest>) returns (reply: Result<()>)
    requires RequisitionKeys(s.db.prs, s.db.prLines, s.db.nextPrLine)
    modifies s
    ensures Settles(UpdatedPr(old(s.db), user, m, p, version, reqs), old(s.db), s.db, reply)
  {
    if p >= |s.db.prs| { return Err(PrNotFound); }
    var pr := s.db.prs[p];
    if !MayManage(pr, user) { return Err(PrNotApplicant); }
    if pr.status != PrDraft { return Err(PrNotEditable); }
    if pr.version != version { return Err(Conflict); }
    var e := EditItems(s, m, p, pr.items, reqs);
    if e.Err? { return Err(e.error); }
    var edit := e.value;
    pr := pr.(items := edit.items, total := edit.total, version := version + 1);
    s.db := s.db.(prs := s.db.prs[p := pr], prLines := edit.lines, nextPrLine := edit.next,
                  audit := s.db.audit + [Audit(PrUpdated, p)]);
    return Ok(());
  }

  method CheckMaterials(m: Master, lines: map<nat, PrLine>, items: seq<nat>) returns (r: Result<()>)
    requires forall i :: i in items ==> i in lines
    ensures r == MaterialsOk(m, lines, items)
  {
    for k := 0 to |items|
      invariant MaterialsOk(m, lines, items) == MaterialsOk(m, lines, items[k..])
    {
      assert items[k..][1..] == items[k + 1..];
      var material := MaterialOk(m, lines[items[k]].material);
      if material.Err? { return material; }
    }
    return Ok(());
  }

  method CheckLines(m: Master, lines: map<nat, PrLine>, items: seq<nat>) returns (r: Result<()>)
    requires forall i :: i in items ==> i in lines
    ensures r == LinesStillOk(m, lines, items)
  {
    for k := 0 to |items|
      invariant LinesStillOk(m, lines, items) == LinesStillOk(m, lines, items[k..])
    {
      assert items[k..][1..] == items[k + 1..];
      var line := lines[items[k]];
      var material := MaterialOk(m, line.material);
      if material.Err? { return material; }
      if line.requested <= 0 || line.price < 0 { return Err(ValidationError); }
    }
    return Ok(());
  }

  method SubmitPr(s: Session, user: User, m: Master, p: nat) returns (reply: Result<()>)
    requires RequisitionKeys(s.db.prs, s.db.prLines, s.db.nextPrLine)
    modifies s
    ensures Settles(SubmittedPr(old(s.db), user, m, p), old(s.db), s.db, reply)
  {
    hide MaterialsOk, Recomputed;
    if p >= |s.db.prs| { return Err(PrNotFound); }
    var pr := s.db.prs[p];
    if !MayManage(pr, user) { return Err(PrNotApplicant); }
    if !MayTurn(pr.status, PrPending) { return Err(PrInvalidStatusTransition); }
    if pr.items == [] { return Err(PrEmptyItems); }
    var materials := CheckMaterials(m, s.db.prLines, pr.items);
    if materials.Err? { return materials; }
    var r := Recompute(s.db.prLines, pr.items);
    if r.Err? { return Err(r.error); }
    pr := pr.(status := PrPending, total := r.value.1, version := pr.version + 1);
    s.db := s.db.(prs := s.db.prs[p := pr], prLines := r.value.0, audit := s.db.audit + [Audit(PrSubmitted, p)]);
    return Ok(());
  }

  method CancelPr(s: Session, user: User, p: nat) returns (reply: Result<()>)
    requires RequisitionKeys(s.db.prs, s.db.prLines, s.db.nextPrLine)
    modifies s
    ensures Settles(CancelledPr(old(s.db), user, p), old(s.db), s.db, reply)
    ensures reply.Ok? <==>
      && p < |old(s.db).prs| && MayManage(old(s.db).prs[p], user)
      && (old(s.db).prs[p].status == PrDraft || (old(s.db).prs[p].status == PrApproved && !HasActivePo(old(s.db), p)))
    ensures reply.Ok? ==> OnlyTurns(old(s.db), s.db, p, PrCancelled, [], PrWasCancelled)
  {
    if p >= |s.db.prs| { return Err(PrNotFound); }
    var pr := s.db.prs[p];
    if !MayManage(pr, user) { return Err(PrNotApplicant); }
    if !MayTurn(pr.status, PrCancelled) { return Err(PrInvalidStatusTransition); }
    if pr.status == PrApproved && HasActivePo(s.db, p) { return Err(PrCancelHasActivePo); }
    pr := pr.(status := PrCancelled, version := pr.version + 1);
    s.db := s.db.(prs := s.db.prs[p := pr], audit := s.db.audit + [Audit(PrWasCancelled, p)]);
    return Ok(());
  }

  method ApprovePr(s: Session, user: User, m: Master, p: nat, version: nat) returns (reply: Result<()>)
    requires RequisitionKeys(s.db.prs, s.db.prLines, s.db.nextPrLine)
    modifies s
    ensures Settles(ApprovedPr(old(s.db), user, m, p, version), old(s.db), s.db, reply)
  {
    hide LinesStillOk, Recomputed;
    if p >= |s.db.prs| { return Err(PrNotFound); }
    var pr := s.db.prs[p];
    if !MayTurn(pr.status, PrApproved) { return Err(PrInvalidStatusTransition); }
    if pr.version != version { return Err(PrVersionConflict); }
    var override := Approver(pr, user, m);
    if override.Err? { return Err(override.error); }
    if pr.items == [] { return Err(PrEmptyItems); }
    var lines := CheckLines(m, s.db.prLines, pr.items);
    if lines.Err? { return lines; }
    var r := Recompute(s.db.prLines, pr.items);
    if r.Err? { return Err(r.error); }
    pr := pr.(status := PrApproved, total := r.value.1, version := version + 1);
    s.db := s.db.(prs := s.db.prs[p := pr], prLines := r.value.0);
    s.db := s.db.(approvals := s.db.approvals + [Approval(p, Approve, user.id, override.value)]);
    s.db := s.db.(audit := s.db.audit + [Audit(PrWasApproved, p)]);
    return Ok(());
  }

  method RejectPr(s: Session, user: User, m: Master, p: nat, version: nat) returns (reply: Result<()>)
    modifies s
    ensures Settles(RejectedPr(old(s.db), user, m, p, version), old(s.db), s.db, reply)
    ensures reply.Ok? <==>
      && p < |old(s.db).prs| && old(s.db).prs[p].status == PrPending && old(s.db).prs[p].version == version
      && MayDecide(old(s.db).prs[p].department, user, m)
    ensures reply.Ok? ==>
      OnlyTurns(old(s.db), s.db, p, PrRejected, [Approval(p, Reject, user.id, user.isAdmin)], PrWasRejected)
  {
    if p >= |s.db.prs| { return Err(PrNotFound); }
    var pr := s.db.prs[p];
    if !MayTurn(pr.status, PrRejected) { return Err(PrInvalidStatusTransition); }
    if pr.version != version { return Err(PrVersionConflict); }
    var override := Approver(pr, user, m);
    if override.Err? { return Err(override.error); }
    s.db := s.db.(prs := s.db.prs[p := pr.(status := PrRejected, version := version + 1)]);
    s.db := s.db.(approvals := s.db.approvals + [Approval(p, Reject, user.id, override.value)]);
    s.db := s.db.(audit := s.db.audit + [Audit(PrWasRejected, p)]);
    return Ok(());
  }

  method RevisePr(s: Session, user: User, p: nat, version: nat) returns (reply: Result<()>)
    modifies s
    ensures Settles(RevisedPr(old(s.db), user, p, version), old(s.db), s.db, reply)
    ensures reply.Ok? <==>
      && p < |old(s.db).prs| && old(s.db).prs[p].status == PrRejected && old(s.db).prs[p].version == version
      && MayManage(old(s.db).prs[p], user)
    ensures reply.Ok? ==> OnlyTurns(old(s.db), s.db, p, PrDraft, [], PrRevised)
  {
    if p >= |s.db.prs| { return Err(PrNotFound); }
    var pr := s.db.prs[p];
    if !MayTurn(pr.status, PrDraft) { return Err(PrInvalidStatusTransition); }
    if !MayManage(pr, user) { return Err(PrNotApplicant); }
    if pr.version != version { return Err(PrVersionConflict); }
    s.db := s.db.(prs := s.db.prs[p := pr.(status := PrDraft, version := version + 1)],
                  audit := s.db.audit + [Audit(PrRevised, p)]);
    return Ok(());
  }
}
