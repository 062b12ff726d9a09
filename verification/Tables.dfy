/** The tables of the purchasing and stock kernel, and the database session that updates them. */
module Tables {

  // ---------------------------------------------------------------------------------------------
  // Error codes
  // ---------------------------------------------------------------------------------------------

  datatype ErrorCode =
    | ValidationError | NotFound | Conflict | DuplicateKey | PermissionDenied | UserDisabled | MasterDataDisabled
    | PrNotFound | PrInvalidStatusTransition | PrNotEditable | PrEmptyItems | PrNotApplicant | PrNotApprover
    | PrCancelHasActivePo | PrItemConvertExceeded | PrItemNotFound | PrVersionConflict
    | PoNotFound | PoInvalidStatusTransition | PoEmptyItems | PoSupplierDisabled | PoUnitPriceRequired
    | PoCancelHasReceipt | PoNotReceivable | PoSourceQuantityMismatch | PoItemNotFound | PoVersionConflict
    | ReceiptNotFound | ReceiptExceedsRemaining | ReceiptEmptyItems | ReceiptDuplicateItem | ReceiptAlreadyReversed
    | ReceiptNotPosted | ReceiptQuantityPositive | ReceiptItemNotInPo | InventoryNegative | InventoryBalanceMismatch
    | ReconciliationNotFound | ReconciliationInvalidStatus | ReconciliationVersionConflict
    | ReconciliationBalanceChanged | ReconciliationSelfApproval | ReconciliationOverrideReasonRequired
    | ReconciliationEmptyItems | ReconciliationPhysicalNegative | ReconciliationValuationRateRequired

  datatype Option<+T> = None | Some(value: T)

  datatype Result<+T> = Ok(value: T) | Err(error: ErrorCode) {
    predicate IsFailure() { Err? }
    function PropagateFailure<U>(): Result<U> requires Err? { Err(error) }
    function Extract(): T requires Ok? { value }
  }

  // ---------------------------------------------------------------------------------------------
  // Who calls, and the master data they call against (an entry maps an id to "is ACTIVE")
  // ---------------------------------------------------------------------------------------------

  datatype User = User(id: int, isAdmin: bool, active: bool, department: Option<int>, mayOverrideSelfApproval: bool)

  datatype Master = Master(materials: map<int, bool>, warehouses: map<int, bool>, suppliers: map<int, bool>,
                           departments: map<int, bool>, managers: set<(int, int)>)

  predicate IsActive(entries: map<int, bool>, id: int) {
    id in entries && entries[id]
  }

  // Missing and disabled master data are different errors.
  function Active(entries: map<int, bool>, id: int, missing: ErrorCode, disabled: ErrorCode): (r: Result<()>)
    ensures r.Ok? <==> IsActive(entries, id)
  {
    if id !in entries then Err(missing) else if !entries[id] then Err(disabled) else Ok(())
  }

  // ---------------------------------------------------------------------------------------------
  // Rows (an auto-increment id is the row's position; requisition lines can be deleted, so they sit in a map)
  // ---------------------------------------------------------------------------------------------

  datatype PrStatus = PrDraft | PrPending | PrApproved | PrRejected | PrConverted | PrCancelled
  datatype Pr = Pr(applicant: int, department: int, status: PrStatus, items: seq<nat>, total: int, version: nat)
  datatype PrLine = PrLine(pr: nat, material: int, requested: int, converted: int, price: int, amount: int)

  datatype ApprovalAction = Approve | Reject
  datatype Approval = Approval(pr: nat, action: ApprovalAction, approver: int, adminOverride: bool)

  datatype PoStatus = PoDraft | PoConfirmed | PoPartiallyReceived | PoReceived | PoCancelled
  datatype Po = Po(buyer: int, status: PoStatus, total: int, version: nat)
  datatype PoLine = PoLine(po: nat, material: int, ordered: int, received: int, price: int, amount: int)
  datatype Source = Source(poLine: nat, prLine: nat, quantity: int)

  datatype ReceiptStatus = Posted | Reversed
  datatype Receipt = Receipt(po: nat, warehouse: int, status: ReceiptStatus)
  datatype ReceiptLine = ReceiptLine(receipt: nat, poLine: nat, material: int, quantity: int, price: int, amount: int)

  datatype Key = Key(warehouse: int, material: int)
  datatype Balance = Balance(quantity: int, total: int, average: int)

  datatype TxnType = PurchaseIn | PurchaseInReversal | AdjustIn | AdjustOut
  datatype TxnSource = ReceiptSource(receipt: nat, line: nat)
                     | ReversalSource(receipt: nat, line: nat)
                     | CountSource(count: nat, item: nat)
  // `after` is the row's balance_after; `reversed` the position of the row it undoes.
  datatype Txn = Txn(kind: TxnType, key: Key, quantity: int, unitCost: int, amount: int, after: int,
                     source: TxnSource, reversed: Option<nat>)

  datatype CountStatus = CountDraft | CountPending | CountPosted | CountRejected
  datatype Count = Count(warehouse: int, countedBy: int, status: CountStatus, items: seq<CountItem>, version: nat,
                         approvedBy: Option<int>, selfApproved: bool)
  // `watermark` is the id (position + 1) of the key's last ledger row at snapshot time, 0 when there was none.
  datatype CountItem = CountItem(material: int, bookQuantity: int, bookTotal: int, bookAverage: int, watermark: nat,
                                 physical: int, difference: int, rate: Option<int>, amount: int)

  datatype AuditAction = PrCreated | PrUpdated | PrSubmitted | PrWasApproved | PrWasRejected | PrRevised
                       | PrWasCancelled
                       | PoCreated | PoWasConfirmed | PoWasCancelled | ReceiptPosted | ReceiptWasReversed
                       | CountEdited | CountSubmitted | CountApproved | CountWasRejected
  datatype Audit = Audit(action: AuditAction, document: nat)

  datatype Db = Db(
    prs: seq<Pr>, prLines: map<nat, PrLine>, nextPrLine: nat, approvals: seq<Approval>,
    pos: seq<Po>, poLines: seq<PoLine>, sources: seq<Source>,
    receipts: seq<Receipt>, receiptLines: seq<ReceiptLine>,
    ledger: seq<Txn>, balances: map<Key, Balance>,
    counts: seq<Count>,
    audit: seq<Audit>)

  const EMPTY := Db([], map[], 0, [], [], [], [], [], [], [], map[], [], [])

  // ---------------------------------------------------------------------------------------------
  // The session of one service call: it updates the tables in place, and undoes everything when the call fails
  // ---------------------------------------------------------------------------------------------

  class Session {
    var db: Db

    constructor ()
      ensures db == EMPTY
    {
      db := EMPTY;
    }

    // The rollback a raised exception causes.
    method Rollback(saved: Db)
      modifies this
      ensures db == saved
    {
      db := saved;
    }
  }

  // ---------------------------------------------------------------------------------------------
  // Foreign keys and CHECK constraints: what the schema alone guarantees of any stored tables
  // ---------------------------------------------------------------------------------------------

  ghost predicate RequisitionKeys(prs: seq<Pr>, lines: map<nat, PrLine>, next: nat) {
    && (forall p, i :: 0 <= p < |prs| && i in prs[p].items ==> i in lines && lines[i].pr == p)
    && (forall l :: l in lines ==> l < next && lines[l].pr < |prs|)
  }

  ghost predicate OrderKeys(pos: seq<Po>, poLines: seq<PoLine>, sources: seq<Source>, lines: map<nat, PrLine>) {
    && (forall j :: 0 <= j < |poLines| ==> poLines[j].po < |pos| && poLines[j].ordered > 0 && poLines[j].price >= 0)
    && (forall x :: x in sources ==> x.poLine < |poLines| && x.prLine in lines && x.quantity > 0)
  }

  ghost predicate ReceiptKeys(pos: seq<Po>, poLines: seq<PoLine>, receipts: seq<Receipt>, rows: seq<ReceiptLine>) {
    && (forall r :: 0 <= r < |receipts| ==> receipts[r].po < |pos|)
    && (forall n :: 0 <= n < |rows| ==>
          rows[n].receipt < |receipts| && rows[n].poLine < |poLines| && rows[n].quantity > 0)
  }

  ghost predicate BalanceChecks(balances: map<Key, Balance>) {
    forall k :: k in balances ==> balances[k].quantity >= 0 && balances[k].total >= 0
  }

  ghost predicate Stored(db: Db) {
    && RequisitionKeys(db.prs, db.prLines, db.nextPrLine)
    && OrderKeys(db.pos, db.poLines, db.sources, db.prLines)
    && ReceiptKeys(db.pos, db.poLines, db.receipts, db.receiptLines)
    && BalanceChecks(db.balances)
  }

  // A call that answers `reply` moved the tables from `before` to `after` as its specification says:
  // the specified new tables on success, the old ones and the specified error on failure.
  predicate Settles(specified: Result<Db>, before: Db, after: Db, reply: Result<()>) {
    match specified
    case Ok(db) => reply == Ok(()) && after == db
    case Err(e) => reply == Err(e) && after == before
  }
}
