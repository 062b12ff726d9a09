/** What every operation keeps of the requisitions: their lines and totals, their status, their approval trail. */
module RequisitionRules {
  import opened Sums
  import opened Tables
  import opened Requisitions
  import Orders

  // ---------------------------------------------------------------------------------------------
  // Lines and headers
  // ---------------------------------------------------------------------------------------------

  predicate LineFits(line: PrLine) {
    LineOk(line) && 0 <= line.converted <= line.requested
  }

  ghost predicate HeaderFits(prs: seq<Pr>, lines: map<nat, PrLine>, p: nat)
    requires p < |prs|
  {
    && Distinct(prs[p].items)
    && (forall i :: i in prs[p].items ==> i in lines && lines[i].pr == p)
    && prs[p].total == Sum(prs[p].items, AmountIn(lines))
  }

  ghost predicate LinesFit(prs: seq<Pr>, lines: map<nat, PrLine>, next: nat) {
    && (forall l :: l in lines ==> LineFits(lines[l]) && l < next && lines[l].pr < |prs| && l in prs[lines[l].pr].items)
    && (forall p :: 0 <= p < |prs| ==> HeaderFits(prs, lines, p))
  }

  lemma {:induction false} LinesFitKeys(prs: seq<Pr>, lines: map<nat, PrLine>, next: nat)
    requires LinesFit(prs, lines, next)
    ensures RequisitionKeys(prs, lines, next)
  {
    forall p, i | 0 <= p < |prs| && i in prs[p].items ensures i in lines && lines[i].pr == p {
      assert HeaderFits(prs, lines, p);
    }
  }

  // A header whose lines keep their amounts keeps its total.
  lemma {:induction false} HeaderKept(prs: seq<Pr>, lines: map<nat, PrLine>, prs2: seq<Pr>, lines2: map<nat, PrLine>,
          p: nat)
    requires p < |prs| && p < |prs2| && HeaderFits(prs, lines, p)
    requires prs2[p].items == prs[p].items && prs2[p].total == prs[p].total
    requires forall i :: i in prs[p].items ==> i in lines2 && lines2[i].pr == p && lines2[i].amount == lines[i].amount
    ensures HeaderFits(prs2, lines2, p)
  {
    SumEqual(prs[p].items, AmountIn(lines), AmountIn(lines2));
  }

  // ---------------------------------------------------------------------------------------------
  // The status of a header is determined by the quantities of its lines
  // ---------------------------------------------------------------------------------------------

  ghost predicate NothingConverted(lines: map<nat, PrLine>, p: nat) {
    forall l :: l in lines && lines[l].pr == p ==> lines[l].converted == 0
  }

  ghost predicate StatusFits(status: PrStatus, lines: map<nat, PrLine>, p: nat) {
    match status
    case PrApproved => !Orders.FullyConverted(lines, p)
    case PrConverted => Orders.FullyConverted(lines, p)
    case _ => NothingConverted(lines, p)
  }

  ghost predicate StatusesFit(prs: seq<Pr>, lines: map<nat, PrLine>) {
    forall p :: 0 <= p < |prs| ==> StatusFits(prs[p].status, lines, p)
  }

  ghost predicate SameLinesOf(lines: map<nat, PrLine>, lines2: map<nat, PrLine>, p: nat) {
    && (forall l :: l in lines && lines[l].pr == p ==> l in lines2 && lines2[l] == lines[l])
    && (forall l :: l in lines2 && lines2[l].pr == p ==> l in lines && lines2[l] == lines[l])
  }

  lemma {:induction false} StatusKept(status: PrStatus, lines: map<nat, PrLine>, lines2: map<nat, PrLine>, p: nat)
    requires StatusFits(status, lines, p) && SameLinesOf(lines, lines2, p)
    ensures StatusFits(status, lines2, p)
  {
    if status == PrApproved {
      var l :| l in lines && lines[l].pr == p && lines[l].converted < lines[l].requested;
      assert l in lines2 && lines2[l] == lines[l];
    }
  }

  // ---------------------------------------------------------------------------------------------
  // Editing the lines of one requisition
  // ---------------------------------------------------------------------------------------------

  function ItemsNow(prs: seq<Pr>, p: nat): seq<nat> {
    if p < |prs| then prs[p].items else []
  }

  // Headers after requisition p was created or edited.
  ghost predicate EditedHeader(prs: seq<Pr>, prs2: seq<Pr>, p: nat, e: Edit) {
    && p <= |prs| && |prs2| == (if p < |prs| then |prs| else p + 1)
    && (forall q :: 0 <= q < |prs| && q != p ==> prs2[q] == prs[q])
    && prs2[p].items == e.items && prs2[p].total == e.total && prs2[p].status == PrDraft
  }

  lemma {:induction false} OtherLinesStay(prs: seq<Pr>, lines: map<nat, PrLine>, next: nat, p: nat, e: Edit, q: nat)
    requires LinesFit(prs, lines, next) && p <= |prs| && q < |prs| && q != p
    requires LinesCarryOver(lines, next, p, ItemsNow(prs, p), e)
    ensures SameLinesOf(lines, e.lines, q)
  {
    assert p < |prs| ==> HeaderFits(prs, lines, p);
  }

  lemma {:induction false} EditedLineFits(prs: seq<Pr>, lines: map<nat, PrLine>, next: nat, p: nat, e: Edit, l: nat)
    requires LinesFit(prs, lines, next) && p <= |prs| && NothingConverted(lines, p)
    requires LinesCarryOver(lines, next, p, ItemsNow(prs, p), e) && ItemsFit(lines, ItemsNow(prs, p), e)
    requires l in e.lines
    ensures LineFits(e.lines[l]) && l < e.next
    ensures if l in lines && lines[l].pr != p then e.lines[l] == lines[l]
            else e.lines[l].pr == p && e.lines[l].converted == 0 && l in e.items
  {
    if p < |prs| { assert HeaderFits(prs, lines, p); }
  }

  lemma {:induction false} EditKeepsLines(prs: seq<Pr>, lines: map<nat, PrLine>, next: nat, prs2: seq<Pr>, p: nat,
          e: Edit)
    requires LinesFit(prs, lines, next) && EditedHeader(prs, prs2, p, e) && NothingConverted(lines, p)
    requires LinesCarryOver(lines, next, p, ItemsNow(prs, p), e) && ItemsFit(lines, ItemsNow(prs, p), e)
    ensures LinesFit(prs2, e.lines, e.next)
  {
    forall l | l in e.lines
      ensures LineFits(e.lines[l]) && l < e.next && e.lines[l].pr < |prs2| && l in prs2[e.lines[l].pr].items
    {
      EditedLineFits(prs, lines, next, p, e, l);
    }
    forall q | 0 <= q < |prs2| ensures HeaderFits(prs2, e.lines, q) {
      if q != p {
        OtherLinesStay(prs, lines, next, p, e, q);
        assert HeaderFits(prs, lines, q);
        HeaderKept(prs, lines, prs2, e.lines, q);
      } else {
        forall i | i in e.items ensures e.lines[i].pr == p { EditedItemOwned(prs, lines, next, p, e, i); }
      }
    }
  }

  lemma {:induction false} EditedItemOwned(prs: seq<Pr>, lines: map<nat, PrLine>, next: nat, p: nat, e: Edit, i: nat)
    requires LinesFit(prs, lines, next) && p <= |prs|
    requires LinesCarryOver(lines, next, p, ItemsNow(prs, p), e) && ItemsFit(lines, ItemsNow(prs, p), e)
    requires i in e.items
    ensures e.lines[i].pr == p
  {
    if p < |prs| { assert HeaderFits(prs, lines, p); }
  }

  lemma {:induction false} EditKeepsStatuses(prs: seq<Pr>, lines: map<nat, PrLine>, next: nat, prs2: seq<Pr>, p: nat,
          e: Edit)
    requires LinesFit(prs, lines, next) && StatusesFit(prs, lines) && EditedHeader(prs, prs2, p, e)
    requires NothingConverted(lines, p)
    requires LinesCarryOver(lines, next, p, ItemsNow(prs, p), e) && ItemsFit(lines, ItemsNow(prs, p), e)
    ensures StatusesFit(prs2, e.lines)
  {
    forall q | 0 <= q < |prs2| ensures StatusFits(prs2[q].status, e.lines, q) {
      if q != p {
        OtherLinesStay(prs, lines, next, p, e, q);
        StatusKept(prs[q].status, lines, e.lines, q);
      } else {
        forall l | l in e.lines && e.lines[l].pr == p ensures e.lines[l].converted == 0 {
          EditedLineFits(prs, lines, next, p, e, l);
        }
      }
    }
  }

  // ---------------------------------------------------------------------------------------------
  // Recomputing stored lines changes nothing
  // ---------------------------------------------------------------------------------------------

  // Submitting and approving recompute every amount; on stored lines that is the identity.
  lemma {:induction false} RecomputeIsStable(prs: seq<Pr>, lines: map<nat, PrLine>, next: nat, p: nat)
    requires LinesFit(prs, lines, next) && p < |prs|
    ensures forall i :: i in prs[p].items ==> i in lines
    ensures Recomputed(lines, prs[p].items) == Ok((lines, prs[p].total))
  {
    assert HeaderFits(prs, lines, p);
    assert Repriced(lines, prs[p].items) == lines by {
      forall l | l in lines ensures Repriced(lines, prs[p].items)[l] == lines[l] { assert LineFits(lines[l]); }
    }
    RecomputedTotal(lines, prs[p].items);
  }

  // A step that only moves status and version.
  function Turned(prs: seq<Pr>, p: nat, status: PrStatus): (r: seq<Pr>)
    requires p < |prs|
  {
    prs[p := prs[p].(status := status, version := prs[p].version + 1)]
  }

  lemma {:induction false} TurnKeepsLines(prs: seq<Pr>, lines: map<nat, PrLine>, next: nat, p: nat, status: PrStatus)
    requires p < |prs| && LinesFit(prs, lines, next)
    ensures LinesFit(Turned(prs, p, status), lines, next)
  {
    var prs2 := Turned(prs, p, status);
    forall q | 0 <= q < |prs2| ensures HeaderFits(prs2, lines, q) {
      assert HeaderFits(prs, lines, q);
      HeaderKept(prs, lines, prs2, lines, q);
    }
  }

  // A requisition with a line that converted nothing is not fully converted.
  lemma {:induction false} NotFullYet(prs: seq<Pr>, lines: map<nat, PrLine>, next: nat, p: nat)
    requires p < |prs| && LinesFit(prs, lines, next) && NothingConverted(lines, p) && prs[p].items != []
    ensures !Orders.FullyConverted(lines, p)
  {
    var i := prs[p].items[0];
    assert HeaderFits(prs, lines, p) && i in prs[p].items && LineFits(lines[i]);
  }

  // ---------------------------------------------------------------------------------------------
  // The approval trail
  // ---------------------------------------------------------------------------------------------

  function About(p: nat): Approval -> bool {
    (a: Approval) => a.pr == p
  }

  function History(approvals: seq<Approval>, p: nat): seq<Approval> {
    Select(approvals, About(p))
  }

  predicate OnRequisition(action: AuditAction) {
    action.PrCreated? || Bumps(action)
  }

  // The calls that count the version up; the quantity-driven flips do not.
  predicate Bumps(action: AuditAction) {
    action.PrUpdated? || action.PrSubmitted? || action.PrWasApproved? || action.PrWasRejected? || action.PrRevised?
    || action.PrWasCancelled?
  }

  function Bump(p: nat): Audit -> int {
    (a: Audit) => if a.document == p && Bumps(a.action) then 1 else 0
  }

  function Submission(p: nat): Audit -> int {
    (a: Audit) => if a.document == p && a.action.PrSubmitted? then 1 else 0
  }

  predicate AllRejected(h: seq<Approval>) {
    forall i :: 0 <= i < |h| ==> h[i].action == Reject
  }

  predicate EndsApproved(h: seq<Approval>) {
    h != [] && h[|h| - 1].action == Approve && AllRejected(h[..|h| - 1])
  }

  // REJECT* then at most one APPROVE, one record per submission, and a version that counts the calls.
  predicate TrailFits(pr: Pr, h: seq<Approval>, submissions: int, bumps: int) {
    && pr.version == 1 + bumps
    && |h| + (if pr.status == PrPending then 1 else 0) == submissions
    && match pr.status
       case PrDraft => AllRejected(h)
       case PrPending => AllRejected(h)
       case PrRejected => AllRejected(h) && h != []
       case PrApproved => EndsApproved(h)
       case PrConverted => EndsApproved(h)
       case PrCancelled => AllRejected(h) || EndsApproved(h)
  }

  ghost predicate TrailsFit(prs: seq<Pr>, approvals: seq<Approval>, audit: seq<Audit>) {
    && (forall p :: 0 <= p < |prs| ==>
          TrailFits(prs[p], History(approvals, p), Sum(audit, Submission(p)), Sum(audit, Bump(p))))
    && (forall i :: 0 <= i < |approvals| ==> approvals[i].pr < |prs|)
    && (forall i :: 0 <= i < |audit| && OnRequisition(audit[i].action) ==> audit[i].document < |prs|)
  }

  lemma {:induction false} HistoryGrows(approvals: seq<Approval>, a: Approval, p: nat)
    ensures History(approvals + [a], p) == History(approvals, p) + if a.pr == p then [a] else []
  {
    assert (approvals + [a])[..|approvals|] == approvals;
  }

  // What one audited call does to requisition q.
  lemma {:induction false} CountsGrow(audit: seq<Audit>, a: Audit, q: nat)
    ensures Sum(audit + [a], Bump(q)) == Sum(audit, Bump(q)) + if a.document == q && Bumps(a.action) then 1 else 0
    ensures Sum(audit + [a], Submission(q)) == Sum(audit, Submission(q))
         + if a.document == q && a.action.PrSubmitted? then 1 else 0
  {
    SumSnoc(audit, a, Bump(q));
    SumSnoc(audit, a, Submission(q));
  }

  // A new requisition starts with an empty history.
  lemma {:induction false} NothingYet(prs: seq<Pr>, approvals: seq<Approval>, audit: seq<Audit>)
    requires TrailsFit(prs, approvals, audit)
    ensures History(approvals, |prs|) == []
    ensures Sum(audit, Bump(|prs|)) == 0 && Sum(audit, Submission(|prs|)) == 0
  {
    SelectNone(approvals, About(|prs|));
    SumZero(audit, Bump(|prs|));
    SumZero(audit, Submission(|prs|));
  }

  predicate Interchangeable(a: PrStatus, b: PrStatus) {
    a == b || (a in {PrApproved, PrConverted} && b in {PrApproved, PrConverted})
  }

  // A call on another document may flip Approved and Converted, and leaves every trail alone.
  lemma {:induction false} FlipsKeepTrails(prs: seq<Pr>, approvals: seq<Approval>, audit: seq<Audit>, prs2: seq<Pr>,
          a: Audit)
    requires TrailsFit(prs, approvals, audit) && !OnRequisition(a.action)
    requires |prs2| == |prs|
    requires forall p :: 0 <= p < |prs| ==>
      prs2[p].version == prs[p].version && Interchangeable(prs[p].status, prs2[p].status)
    ensures TrailsFit(prs2, approvals, audit + [a])
  {
    forall p | 0 <= p < |prs|
      ensures TrailFits(prs2[p], History(approvals, p), Sum(audit + [a], Submission(p)), Sum(audit + [a], Bump(p)))
    {
      CountsGrow(audit, a, p);
      assert TrailFits(prs[p], History(approvals, p), Sum(audit, Submission(p)), Sum(audit, Bump(p)));
    }
  }

  // A call on requisition p leaves every other trail alone.
  lemma {:induction false} CallKeepsOtherTrails(prs: seq<Pr>, approvals: seq<Approval>, audit: seq<Audit>,
          prs2: seq<Pr>, more: seq<Approval>, a: Audit)
    requires TrailsFit(prs, approvals, audit)
    requires OnRequisition(a.action) && a.document <= |prs|
    requires |more| <= 1 && forall i :: 0 <= i < |more| ==> more[i].pr == a.document
    requires |prs2| == (if a.document < |prs| then |prs| else |prs| + 1)
    requires forall q :: 0 <= q < |prs| && q != a.document ==> prs2[q] == prs[q]
    requires var p := a.document;
      TrailFits(prs2[p], History(approvals, p) + more,
                Sum(audit, Submission(p)) + (if a.action.PrSubmitted? then 1 else 0),
                Sum(audit, Bump(p)) + (if Bumps(a.action) then 1 else 0))
    ensures TrailsFit(prs2, approvals + more, audit + [a])
  {
    forall q | 0 <= q < |prs2|
      ensures TrailFits(prs2[q], History(approvals + more, q), Sum(audit + [a], Submission(q)),
                        Sum(audit + [a], Bump(q)))
    {
      CountsGrow(audit, a, q);
      if more == [] {
        assert approvals + more == approvals && History(approvals, q) + more == History(approvals, q);
      } else {
        assert more == [more[0]];
        HistoryGrows(approvals, more[0], q);
        assert History(approvals, q) + [] == History(approvals, q);
      }
      assert q < |prs| ==> TrailFits(prs[q], History(approvals, q), Sum(audit, Submission(q)), Sum(audit, Bump(q)));
    }
  }

  // ---------------------------------------------------------------------------------------------
  // Every requisition service keeps the rules
  // ---------------------------------------------------------------------------------------------

  ghost predicate RequisitionsOk(db: Db) {
    && LinesFit(db.prs, db.prLines, db.nextPrLine)
    && StatusesFit(db.prs, db.prLines)
    && TrailsFit(db.prs, db.approvals, db.audit)
  }

  function EditedDb(db: Db, p: nat, pr: Pr, e: Edit, action: AuditAction): Db
    requires p <= |db.prs|
  {
    db.(prs := if p < |db.prs| then db.prs[p := pr] else db.prs + [pr], prLines := e.lines, nextPrLine := e.next,
        audit := db.audit + [Audit(action, p)])
  }

  // A draft takes the edit's lines and total; a new requisition starts as such a draft.
  ghost predicate Edits(db: Db, p: nat, pr: Pr, e: Edit, action: AuditAction) {
    && p <= |db.prs| && pr.items == e.items && pr.total == e.total && pr.status == PrDraft
    && LinesCarryOver(db.prLines, db.nextPrLine, p, ItemsNow(db.prs, p), e)
    && ItemsFit(db.prLines, ItemsNow(db.prs, p), e)
    && if p < |db.prs| then db.prs[p].status == PrDraft && pr.version == db.prs[p].version + 1 && action == PrUpdated
       else pr.version == 1 && action == PrCreated
  }

  lemma {:induction false} EditKeepsTrails(db: Db, p: nat, pr: Pr, e: Edit, action: AuditAction)
    requires TrailsFit(db.prs, db.approvals, db.audit) && Edits(db, p, pr, e, action)
    ensures TrailsFit(EditedDb(db, p, pr, e, action).prs, db.approvals, db.audit + [Audit(action, p)])
  {
    if p < |db.prs| {
      assert TrailFits(db.prs[p], History(db.approvals, p), Sum(db.audit, Submission(p)), Sum(db.audit, Bump(p)));
    } else {
      NothingYet(db.prs, db.approvals, db.audit);
    }
    assert History(db.approvals, p) + [] == History(db.approvals, p) && db.approvals + [] == db.approvals;
    CallKeepsOtherTrails(db.prs, db.approvals, db.audit, EditedDb(db, p, pr, e, action).prs, [], Audit(action, p));
  }

  lemma {:induction false} EditKeepsRules(db: Db, p: nat, pr: Pr, e: Edit, action: AuditAction)
    requires RequisitionsOk(db) && Edits(db, p, pr, e, action)
    ensures RequisitionsOk(EditedDb(db, p, pr, e, action))
  {
    var prs2 := EditedDb(db, p, pr, e, action).prs;
    assert NothingConverted(db.prLines, p) by {
      if p < |db.prs| { assert StatusFits(db.prs[p].status, db.prLines, p); }
    }
    EditKeepsLines(db.prs, db.prLines, db.nextPrLine, prs2, p, e);
    EditKeepsStatuses(db.prs, db.prLines, db.nextPrLine, prs2, p, e);
    EditKeepsTrails(db, p, pr, e, action);
  }

  // Which status and which approval record a workflow call leaves behind.
  predicate Turns(from: PrStatus, to: PrStatus, more: seq<Approval>, action: AuditAction) {
    match action
    case PrSubmitted => from == PrDraft && to == PrPending && more == []
    case PrWasApproved => from == PrPending && to == PrApproved && |more| == 1 && more[0].action == Approve
    case PrWasRejected => from == PrPending && to == PrRejected && |more| == 1 && more[0].action == Reject
    case PrRevised => from == PrRejected && to == PrDraft && more == []
    case PrWasCancelled => (from == PrDraft || from == PrApproved) && to == PrCancelled && more == []
    case _ => false
  }

  function TurnedDb(db: Db, p: nat, to: PrStatus, more: seq<Approval>, action: AuditAction): Db
    requires p < |db.prs|
  {
    db.(prs := Turned(db.prs, p, to), approvals := db.approvals + more, audit := db.audit + [Audit(action, p)])
  }

  // One trail, over one turn.
  lemma {:induction false} TrailTurns(pr: Pr, h: seq<Approval>, submissions: int, bumps: int, to: PrStatus,
          more: seq<Approval>, action: AuditAction)
    requires TrailFits(pr, h, submissions, bumps) && Turns(pr.status, to, more, action)
    ensures TrailFits(pr.(status := to, version := pr.version + 1), h + more,
                      submissions + (if action.PrSubmitted? then 1 else 0), bumps + (if Bumps(action) then 1 else 0))
  {
    assert h + [] == h;
    assert more != [] ==> (h + more)[..|h|] == h;
  }

  lemma {:induction false} TurnKeepsTrails(db: Db, p: nat, to: PrStatus, more: seq<Approval>, action: AuditAction)
    requires TrailsFit(db.prs, db.approvals, db.audit) && p < |db.prs|
    requires Turns(db.prs[p].status, to, more, action)
    requires forall i :: 0 <= i < |more| ==> more[i].pr == p
    ensures TrailsFit(Turned(db.prs, p, to), db.approvals + more, db.audit + [Audit(action, p)])
  {
    hide TrailFits, History, Sum;
    var h := History(db.approvals, p);
    assert TrailFits(db.prs[p], h, Sum(db.audit, Submission(p)), Sum(db.audit, Bump(p)));
    TrailTurns(db.prs[p], h, Sum(db.audit, Submission(p)), Sum(db.audit, Bump(p)), to, more, action);
    CallKeepsOtherTrails(db.prs, db.approvals, db.audit, Turned(db.prs, p, to), more, Audit(action, p));
  }

  lemma {:induction false} TurnKeepsRules(db: Db, p: nat, to: PrStatus, more: seq<Approval>, action: AuditAction)
    requires RequisitionsOk(db) && p < |db.prs|
    requires Turns(db.prs[p].status, to, more, action)
    requires forall i :: 0 <= i < |more| ==> more[i].pr == p
    requires StatusFits(to, db.prLines, p)
    ensures RequisitionsOk(TurnedDb(db, p, to, more, action))
  {
    TurnKeepsLines(db.prs, db.prLines, db.nextPrLine, p, to);
    var prs2 := Turned(db.prs, p, to);
    forall q | 0 <= q < |prs2| ensures StatusFits(prs2[q].status, db.prLines, q) {
      assert StatusFits(db.prs[q].status, db.prLines, q);
    }
    TurnKeepsTrails(db, p, to, more, action);
  }

  // What each successful call amounts to: an edit, or a turn of the status with at most one approval record.
  ghost predicate IsEdit(db: Db, after: Db, p: nat, pr: Pr, e: Edit, action: AuditAction) {
    Edits(db, p, pr, e, action) && after == EditedDb(db, p, pr, e, action)
  }

  ghost predicate IsTurn(db: Db, after: Db, p: nat, to: PrStatus, more: seq<Approval>, action: AuditAction) {
    && p < |db.prs| && Turns(db.prs[p].status, to, more, action) && StatusFits(to, db.prLines, p)
    && (forall i :: 0 <= i < |more| ==> more[i].pr == p)
    && after == TurnedDb(db, p, to, more, action)
  }

  ghost predicate RequisitionStep(db: Db, after: Db) {
    || (exists p, pr, e, action :: IsEdit(db, after, p, pr, e, action))
    || (exists p, to, more, action :: IsTurn(db, after, p, to, more, action))
  }

  lemma {:induction false} EditIsStep(db: Db, after: Db, p: nat, pr: Pr, e: Edit, action: AuditAction)
    requires IsEdit(db, after, p, pr, e, action)
    ensures RequisitionStep(db, after)
  {
  }

  lemma {:induction false} CreatedPrSteps(db: Db, user: User, m: Master, reqs: seq<LineRequest>, after: Db)
    requires RequisitionKeys(db.prs, db.prLines, db.nextPrLine) && CreatedPr(db, user, m, reqs) == Ok(after)
    ensures RequisitionStep(db, after)
  {
    EditedFacts(m, db.prLines, db.nextPrLine, |db.prs|, [], AsNew(reqs));
    var e := Edited(m, db.prLines, db.nextPrLine, |db.prs|, [], AsNew(reqs)).value;
    assert IsEdit(db, after, |db.prs|, Pr(user.id, user.department.value, PrDraft, e.items, e.total, 1), e, PrCreated);
  }

  lemma {:induction false} UpdatedPrSteps(db: Db, user: User, m: Master, p: nat, version: nat, reqs: seq<LineRequest>,
          after: Db)
    requires RequisitionKeys(db.prs, db.prLines, db.nextPrLine) && p < |db.prs| && HeaderFits(db.prs, db.prLines, p)
    requires UpdatedPr(db, user, m, p, version, reqs) == Ok(after)
    ensures RequisitionStep(db, after)
  {
    hide RequisitionStep;
    EditedFacts(m, db.prLines, db.nextPrLine, p, db.prs[p].items, reqs);
    var e := Edited(m, db.prLines, db.nextPrLine, p, db.prs[p].items, reqs).value;
    EditIsStep(db, after, p, db.prs[p].(items := e.items, total := e.total, version := version + 1), e, PrUpdated);
  }

  // Submitting and approving only move the status: the recomputed money is the stored money.
  lemma {:induction false} SubmittedPrSteps(db: Db, user: User, m: Master, p: nat, after: Db)
    requires RequisitionKeys(db.prs, db.prLines, db.nextPrLine) && SubmittedPr(db, user, m, p) == Ok(after)
    requires p < |db.prs| && Recomputed(db.prLines, db.prs[p].items) == Ok((db.prLines, db.prs[p].total))
    requires StatusFits(db.prs[p].status, db.prLines, p)
    ensures RequisitionStep(db, after)
  {
    assert db.approvals + [] == db.approvals;
    assert IsTurn(db, after, p, PrPending, [], PrSubmitted);
  }

  lemma {:induction false} ApprovedPrSteps(db: Db, user: User, m: Master, p: nat, version: nat, after: Db)
    requires RequisitionKeys(db.prs, db.prLines, db.nextPrLine) && ApprovedPr(db, user, m, p, version) == Ok(after)
    requires p < |db.prs| && Recomputed(db.prLines, db.prs[p].items) == Ok((db.prLines, db.prs[p].total))
    requires StatusFits(db.prs[p].status, db.prLines, p)
    requires db.prs[p].items != [] && NothingConverted(db.prLines, p) ==> StatusFits(PrApproved, db.prLines, p)
    ensures RequisitionStep(db, after)
  {
    hide RequisitionKeys, LinesStillOk;
    var a := Approval(p, Approve, user.id, Approver(db.prs[p], user, m).value);
    assert IsTurn(db, after, p, PrApproved, [a], PrWasApproved);
  }

  lemma {:induction false} RejectedPrSteps(db: Db, user: User, m: Master, p: nat, version: nat, after: Db)
    requires RejectedPr(db, user, m, p, version) == Ok(after)
    requires p < |db.prs| && StatusFits(db.prs[p].status, db.prLines, p)
    ensures RequisitionStep(db, after)
  {
    var a := Approval(p, Reject, user.id, Approver(db.prs[p], user, m).value);
    assert IsTurn(db, after, p, PrRejected, [a], PrWasRejected);
  }

  lemma {:induction false} RevisedPrSteps(db: Db, user: User, p: nat, version: nat, after: Db)
    requires RevisedPr(db, user, p, version) == Ok(after)
    requires p < |db.prs| && StatusFits(db.prs[p].status, db.prLines, p)
    ensures RequisitionStep(db, after)
  {
    assert db.approvals + [] == db.approvals;
    assert IsTurn(db, after, p, PrDraft, [], PrRevised);
  }

  // Cancelling relies on the conversion chain: an approved requisition no live order draws on has nothing converted.
  lemma {:induction false} CancelledPrSteps(db: Db, user: User, p: nat, after: Db)
    requires CancelledPr(db, user, p) == Ok(after)
    requires p < |db.prs| && StatusFits(db.prs[p].status, db.prLines, p)
    requires !HasActivePo(db, p) ==> NothingConverted(db.prLines, p)
    ensures RequisitionStep(db, after)
  {
    assert db.approvals + [] == db.approvals;
    assert IsTurn(db, after, p, PrCancelled, [], PrWasCancelled);
  }
}
