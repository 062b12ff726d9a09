/** Whole runs of service calls, and the service loop that executes them. */
module Runs {
  import opened Tables
  import opened Inventory
  import opened Validity
  import CountRules
  import Requisitions
  import Orders
  import Receipts
  import Counts
  import RequisitionRules
  import ReceiptRules

  datatype Call =
    | CreatePr(lines: seq<Requisitions.LineRequest>)
    | UpdatePr(pr: nat, version: nat, lines: seq<Requisitions.LineRequest>)
    | SubmitPr(pr: nat)
    | CancelPr(pr: nat)
    | ApprovePr(pr: nat, version: nat)
    | RejectPr(pr: nat, version: nat)
    | RevisePr(pr: nat, version: nat)
    | CreatePo(supplier: int, items: seq<Orders.ItemRequest>)
    | ConfirmPo(po: nat, version: nat)
    | CancelPo(po: nat, version: nat)
    | CreateReceipt(po: nat, warehouse: int, goods: seq<Receipts.ReceiveRequest>)
    | ReverseReceipt(receipt: nat)
    | CreateCount(warehouse: int, counted: seq<Counts.CountRequest>)
    | UpdateCount(count: nat, version: nat, counted: seq<Counts.CountRequest>)
    | SubmitCount(count: nat, version: nat)
    | ApproveCount(count: nat, overrideFlag: bool, overrideReason: bool)
    | RejectCount(count: nat)

  // Who calls what, against the master data of that moment.
  datatype Request = Request(user: User, master: Master, call: Call)

  ghost function RequisitionOutcome(db: Db, r: Request): Result<Db>
    requires RequisitionKeys(db.prs, db.prLines, db.nextPrLine)
  {
    match r.call
    case CreatePr(lines) => Requisitions.CreatedPr(db, r.user, r.master, lines)
    case UpdatePr(p, version, lines) => Requisitions.UpdatedPr(db, r.user, r.master, p, version, lines)
    case SubmitPr(p) => Requisitions.SubmittedPr(db, r.user, r.master, p)
    case CancelPr(p) => Requisitions.CancelledPr(db, r.user, p)
    case ApprovePr(p, version) => Requisitions.ApprovedPr(db, r.user, r.master, p, version)
    case RejectPr(p, version) => Requisitions.RejectedPr(db, r.user, r.master, p, version)
    case RevisePr(p, version) => Requisitions.RevisedPr(db, r.user, p, version)
    case _ => Err(NotFound)
  }

  predicate OnRequisitions(call: Call) {
    call.CreatePr? || call.UpdatePr? || call.SubmitPr? || call.CancelPr? || call.ApprovePr? || call.RejectPr?
    || call.RevisePr?
  }

  ghost function Outcome(db: Db, r: Request): Result<Db>
    requires Stored(db)
  {
    match r.call
    case CreatePo(supplier, items) => Orders.CreatedPo(db, r.user, r.master, supplier, items)
    case ConfirmPo(po, version) => Orders.ConfirmedPo(db, r.user, po, version)
    case CancelPo(po, version) => Orders.CancelledPo(db, r.user, po, version)
    case CreateReceipt(po, warehouse, goods) => Receipts.CreatedReceipt(db, r.master, po, warehouse, goods)
    case ReverseReceipt(receipt) => Receipts.ReversedReceipt(db, receipt)
    case CreateCount(warehouse, counted) => Counts.CreatedCount(db, r.user, r.master, warehouse, counted)
    case UpdateCount(count, version, counted) => Counts.UpdatedCount(db, r.master, count, version, counted)
    case SubmitCount(count, version) => Counts.SubmittedCount(db, count, version)
    case ApproveCount(count, flag, reason) => Counts.ApprovedCount(db, r.user, count, flag, reason)
    case RejectCount(count) => Counts.RejectedCount(db, count)
    case _ => RequisitionOutcome(db, r)
  }

  // The requisition a call names; creating one names none.
  function Named(call: Call): Option<nat> {
    match call
    case UpdatePr(p, _, _) => Some(p)
    case SubmitPr(p) => Some(p)
    case CancelPr(p) => Some(p)
    case ApprovePr(p, _) => Some(p)
    case RejectPr(p, _) => Some(p)
    case RevisePr(p, _) => Some(p)
    case _ => None
  }

  lemma {:induction false} NamedExists(db: Db, r: Request, p: nat)
    requires RequisitionKeys(db.prs, db.prLines, db.nextPrLine)
    requires RequisitionOutcome(db, r).Ok? && Named(r.call) == Some(p)
    ensures p < |db.prs|
  {
  }

  lemma {:induction false} NamedCallSteps(db: Db, r: Request, p: nat, after: Db)
    requires RequisitionKeys(db.prs, db.prLines, db.nextPrLine)
    requires RequisitionOutcome(db, r) == Ok(after) && Named(r.call) == Some(p) && Documented(db, p)
    ensures RequisitionRules.RequisitionStep(db, after)
  {
    hide Requisitions.UpdatedPr, Requisitions.SubmittedPr, Requisitions.CancelledPr, Requisitions.ApprovedPr,
         Requisitions.RejectedPr, Requisitions.RevisedPr, RequisitionRules.RequisitionStep;
    match r.call
    case UpdatePr(_, version, lines) =>
      RequisitionRules.UpdatedPrSteps(db, r.user, r.master, p, version, lines, after);
    case SubmitPr(_) => RequisitionRules.SubmittedPrSteps(db, r.user, r.master, p, after);
    case CancelPr(_) => RequisitionRules.CancelledPrSteps(db, r.user, p, after);
    case ApprovePr(_, version) => RequisitionRules.ApprovedPrSteps(db, r.user, r.master, p, version, after);
    case RejectPr(_, version) => RequisitionRules.RejectedPrSteps(db, r.user, r.master, p, version, after);
    case RevisePr(_, version) => RequisitionRules.RevisedPrSteps(db, r.user, p, version, after);
  }

  lemma {:induction false} RequisitionCallSteps(db: Db, r: Request, after: Db)
    requires RequisitionKeys(db.prs, db.prLines, db.nextPrLine)
    requires RequisitionOutcome(db, r) == Ok(after)
    requires forall p :: 0 <= p < |db.prs| ==> Documented(db, p)
    ensures RequisitionRules.RequisitionStep(db, after)
  {
    hide Documented, Requisitions.CreatedPr, RequisitionRules.RequisitionStep;
    if r.call.CreatePr? {
      RequisitionRules.CreatedPrSteps(db, r.user, r.master, r.call.lines, after);
    } else if Named(r.call).Some? {
      NamedExists(db, r, Named(r.call).value);
      NamedCallSteps(db, r, Named(r.call).value, after);
    }
  }

  lemma {:induction false} RequisitionCallKeepsValid(db: Db, r: Request, after: Db)
    requires Valid(db) && RequisitionKeys(db.prs, db.prLines, db.nextPrLine)
    requires RequisitionOutcome(db, r) == Ok(after)
    ensures Valid(after)
  {
    forall p | 0 <= p < |db.prs| ensures Documented(db, p) { ValidIsDocumented(db, p); }
    RequisitionCallSteps(db, r, after);
    RequisitionStepKeepsValid(db, after);
  }

  lemma {:induction false} CountCallSteps(db: Db, r: Request, after: Db)
    requires StockOk(db.ledger, db.balances) && Stored(db) && Outcome(db, r) == Ok(after)
    requires forall c :: 0 <= c < |db.counts| ==> CountRules.CountFits(db.ledger, db.counts[c])
    requires r.call.CreateCount? || r.call.UpdateCount? || r.call.SubmitCount? || r.call.RejectCount?
    ensures CountStep(db, after)
  {
    hide StockOk, CountStep, Counts.NewItems, Counts.Rebuild, Orders.CreatedPo, Orders.ConfirmedPo, Orders.CancelledPo,
         Receipts.CreatedReceipt, Receipts.ReversedReceipt, Counts.ApprovedCount, RequisitionOutcome;
    match r.call
    case CreateCount(warehouse, counted) => CreatedCountSteps(db, r.user, r.master, warehouse, counted, after);
    case UpdateCount(count, version, counted) => UpdatedCountSteps(db, r.master, count, version, counted, after);
    case SubmitCount(count, version) => SubmittedCountSteps(db, count, version, after);
    case RejectCount(count) => RejectedCountSteps(db, count, after);
  }

  lemma {:induction false} CountCallKeepsValid(db: Db, r: Request, after: Db)
    requires Valid(db) && Stored(db) && Outcome(db, r) == Ok(after)
    requires r.call.CreateCount? || r.call.UpdateCount? || r.call.SubmitCount? || r.call.RejectCount?
    ensures Valid(after)
  {
    hide RequisitionRules.RequisitionsOk, OrderRules.OrdersOk, ReceiptRules.ReceiptsFit, LedgerRules.ImageFits;
    CountCallSteps(db, r, after);
    var doc, c, action :| IsCountEdit(db, after, doc, c, action);
    CountEditKeepsValid(db, after, doc, c, action);
  }

  predicate OnOrders(call: Call) {
    call.CreatePo? || call.ConfirmPo? || call.CancelPo?
  }

  predicate OnReceipts(call: Call) {
    call.CreateReceipt? || call.ReverseReceipt?
  }

  lemma {:induction false} OrderCallKeepsValid(db: Db, r: Request, after: Db)
    requires Valid(db) && Stored(db) && OnOrders(r.call) && Outcome(db, r) == Ok(after)
    ensures Valid(after)
  {
    hide Valid, RequisitionKeys, ReceiptKeys, BalanceChecks;
    match r.call
    case CreatePo(supplier, items) => CreatedPoKeepsValid(db, r.user, r.master, supplier, items, after);
    case ConfirmPo(po, version) => ConfirmedPoKeepsValid(db, r.user, po, version, after);
    case CancelPo(po, version) => CancelledPoKeepsValid(db, r.user, po, version, after);
  }

  ghost predicate ReceiptStep(db: Db, after: Db) {
    || (exists po, warehouse, todo :: ReceiptRules.IsReceipt(db, after, po, warehouse, todo))
    || (exists receipt :: ReceiptRules.IsReversal(db, after, receipt))
  }

  lemma {:induction false} ReceiptCallSteps(db: Db, r: Request, after: Db)
    requires Stored(db) && OnReceipts(r.call) && Outcome(db, r) == Ok(after)
    ensures ReceiptStep(db, after)
  {
    hide Receipts.CreatedReceipt, Receipts.ReversedReceipt, RequisitionKeys, OrderKeys, ReceiptKeys, BalanceChecks,
         RequisitionOutcome, ReceiptRules.IsReceipt, ReceiptRules.IsReversal;
    match r.call
    case CreateReceipt(po, warehouse, goods) => ReceiptRules.CreatedReceiptIs(db, r.master, po, warehouse, goods,
                                                                              after);
    case ReverseReceipt(receipt) => ReceiptRules.ReversedReceiptIs(db, receipt, after);
  }

  lemma {:induction false} ReceiptStepKeepsValid(db: Db, after: Db)
    requires Valid(db) && ReceiptStep(db, after)
    ensures Valid(after)
  {
    if po, warehouse, todo :| ReceiptRules.IsReceipt(db, after, po, warehouse, todo) {
      ReceiptKeepsValid(db, after, po, warehouse, todo);
    } else {
      var receipt :| ReceiptRules.IsReversal(db, after, receipt);
      ReversalKeepsValid(db, after, receipt);
    }
  }

  // Every successful call keeps every rule.
  lemma {:induction false} CallKeepsValid(db: Db, r: Request, after: Db)
    requires Valid(db) && Stored(db) && Outcome(db, r) == Ok(after)
    ensures Valid(after)
  {
    hide Valid, OrderKeys, ReceiptKeys, BalanceChecks, Orders.CreatedPo, Orders.ConfirmedPo, Orders.CancelledPo,
         Receipts.CreatedReceipt, Receipts.ReversedReceipt, Counts.CreatedCount, Counts.UpdatedCount,
         Counts.SubmittedCount, Counts.ApprovedCount, Counts.RejectedCount, RequisitionOutcome;
    if OnRequisitions(r.call) {
      RequisitionCallKeepsValid(db, r, after);
    } else if OnOrders(r.call) {
      OrderCallKeepsValid(db, r, after);
    } else if OnReceipts(r.call) {
      ReceiptCallSteps(db, r, after);
      ReceiptStepKeepsValid(db, after);
    } else if r.call.ApproveCount? {
      ApprovedCountKeepsValid(db, r.user, r.call.count, r.call.overrideFlag, r.call.overrideReason, after);
    } else {
      CountCallKeepsValid(db, r, after);
    }
  }

  // ---------------------------------------------------------------------------------------------
  // Runs
  // ---------------------------------------------------------------------------------------------

  // One call: a failure leaves the tables as they were.
  ghost function Step(db: Db, r: Request): (after: Db)
    requires Valid(db)
    ensures Valid(after)
  {
    ValidIsStored(db);
    match Outcome(db, r)
    case Ok(after) => CallKeepsValid(db, r, after); after
    case Err(_) => db
  }

  // Any sequence of calls from the empty tables.
  ghost function Run(requests: seq<Request>): (db: Db)
    ensures Valid(db)
  {
    if requests == [] then EmptyIsValid(); EMPTY
    else Step(Run(requests[..|requests| - 1]), requests[|requests| - 1])
  }

  lemma {:induction false} RunSnoc(requests: seq<Request>, i: nat)
    requires i < |requests|
    ensures Run(requests[..i + 1]) == Step(Run(requests[..i]), requests[i])
  {
    assert requests[..i + 1][..i] == requests[..i];
  }

  // ---------------------------------------------------------------------------------------------
  // The service: every call runs in a session and keeps the tables valid
  // ---------------------------------------------------------------------------------------------

  method ServeRequisition(s: Session, r: Request) returns (reply: Result<()>)
    requires RequisitionKeys(s.db.prs, s.db.prLines, s.db.nextPrLine)
    modifies s
    ensures Settles(RequisitionOutcome(old(s.db), r), old(s.db), s.db, reply)
  {
    match r.call
    case CreatePr(lines) => reply := Requisitions.CreatePr(s, r.user, r.master, lines);
    case UpdatePr(p, version, lines) => reply := Requisitions.UpdatePr(s, r.user, r.master, p, version, lines);
    case SubmitPr(p) => reply := Requisitions.SubmitPr(s, r.user, r.master, p);
    case CancelPr(p) => reply := Requisitions.CancelPr(s, r.user, p);
    case ApprovePr(p, version) => reply := Requisitions.ApprovePr(s, r.user, r.master, p, version);
    case RejectPr(p, version) => reply := Requisitions.RejectPr(s, r.user, r.master, p, version);
    case RevisePr(p, version) => reply := Requisitions.RevisePr(s, r.user, p, version);
    case _ => reply := Err(NotFound);
  }

  method ServeStored(s: Session, r: Request) returns (reply: Result<()>)
    requires Stored(s.db)
    modifies s
    ensures Settles(Outcome(old(s.db), r), old(s.db), s.db, reply)
  {
    hide Orders.CreatedPo, Orders.ConfirmedPo, Orders.CancelledPo, Receipts.CreatedReceipt, Receipts.ReversedReceipt,
         Counts.CreatedCount, Counts.UpdatedCount, Counts.SubmittedCount, Counts.ApprovedCount, Counts.RejectedCount,
         RequisitionOutcome;
    match r.call
    case CreatePo(supplier, items) => reply := Orders.CreatePo(s, r.user, r.master, supplier, items);
    case ConfirmPo(po, version) => reply := Orders.ConfirmPo(s, r.user, po, version);
    case CancelPo(po, version) => reply := Orders.CancelPo(s, r.user, po, version);
    case CreateReceipt(po, warehouse, goods) => reply := Receipts.CreateReceipt(s, r.master, po, warehouse, goods);
    case ReverseReceipt(receipt) => reply := Receipts.ReverseReceipt(s, receipt);
    case CreateCount(warehouse, counted) => reply := Counts.CreateCount(s, r.user, r.master, warehouse, counted);
    case UpdateCount(count, version, counted) => reply := Counts.UpdateCount(s, r.master, count, version, counted);
    case SubmitCount(count, version) => reply := Counts.SubmitCount(s, count, version);
    case ApproveCount(count, flag, reason) => reply := Counts.ApproveCount(s, r.user, count, flag, reason);
    case RejectCount(count) => reply := Counts.RejectCount(s, count);
    case _ => reply := ServeRequisition(s, r);
  }

  // The invariant every service keeps, whatever it is called with and whatever it answers.
  method Serve(s: Session, r: Request) returns (reply: Result<()>)
    requires Valid(s.db)
    modifies s
    ensures Valid(s.db) && s.db == Step(old(s.db), r)
    ensures reply.Err? ==> s.db == old(s.db)
  {
    hide Valid, Outcome;
    ValidIsStored(s.db);
    reply := ServeStored(s, r);
    if reply.Ok? { CallKeepsValid(old(s.db), r, s.db); }
  }

  // A whole run, served call by call in one session.
  method ServeAll(s: Session, requests: seq<Request>)
    requires s.db == EMPTY
    modifies s
    ensures s.db == Run(requests)
  {
    hide Valid;
    assert requests[..0] == [];
    for i := 0 to |requests|
      invariant s.db == Run(requests[..i])
    {
      var _ := Serve(s, requests[i]);
      RunSnoc(requests, i);
    }
    assert requests[..|requests|] == requests;
  }
}
