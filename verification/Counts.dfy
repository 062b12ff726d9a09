/** Stock counts: frozen book snapshots, several rounds of editing, and a guarded posting. */
module Counts {
  import opened Sums
  import opened Money
  import opened Tables
  import opened Inventory

  datatype CountRequest = CountRequest(material: int, physical: int, rate: Option<int>)

  // The book state of a key: its balance, and the id of its last ledger row.
  datatype Snapshot = Snapshot(book: Balance, watermark: nat)

  function TakeSnapshot(db: Db, key: Key): Snapshot {
    Snapshot(BalanceOf(db.balances, key), LastRow(db.ledger, key))
  }

  // Difference, entry rate and signed amount of a line: a surplus at the rate given, a loss at the frozen average.
  datatype Derived = Derived(difference: int, rate: Option<int>, amount: int)

  function AmountFor(line: CountRequest, bookQuantity: int, bookAverage: int): Result<Derived> {
    var difference := line.physical - bookQuantity;
    if difference > 0 then
      if line.rate.None? || line.rate.value <= 0 then Err(ReconciliationValuationRateRequired)
      else Ok(Derived(difference, line.rate, LineAmount(difference, line.rate.value)))
    else if difference < 0 then Ok(Derived(difference, None, -LineAmount(-difference, bookAverage)))
    else Ok(Derived(0, None, 0))
  }

  function NewItem(snap: Snapshot, line: CountRequest): Result<CountItem> {
    var d :- AmountFor(line, snap.book.quantity, snap.book.average);
    Ok(CountItem(line.material, snap.book.quantity, snap.book.total, snap.book.average, snap.watermark,
                 line.physical, d.difference, d.rate, d.amount))
  }

  // A line that stays keeps its frozen snapshot.
  function KeptItem(item: CountItem, line: CountRequest): Result<CountItem> {
    var d :- AmountFor(line, item.bookQuantity, item.bookAverage);
    Ok(item.(physical := line.physical, difference := d.difference, rate := d.rate, amount := d.amount))
  }

  // ---------------------------------------------------------------------------------------------
  // Building the lines of a count
  // ---------------------------------------------------------------------------------------------

  function RequestsOk(m: Master, lines: seq<CountRequest>, seen: set<int>): Result<()> {
    if lines == [] then Ok(())
    else if lines[0].material in seen then Err(Conflict)
    else if lines[0].physical < 0 then Err(ReconciliationPhysicalNegative)
    else
      var _ :- Active(m.materials, lines[0].material, NotFound, MasterDataDisabled);
      RequestsOk(m, lines[1..], seen + {lines[0].material})
  }

  function NewItems(db: Db, warehouse: int, lines: seq<CountRequest>, sofar: seq<CountItem>): Result<seq<CountItem>>
    decreases |lines|
  {
    if lines == [] then Ok(sofar) else
      var item :- NewItem(TakeSnapshot(db, Key(warehouse, lines[0].material)), lines[0]);
      NewItems(db, warehouse, lines[1..], sofar + [item])
  }

  function ItemFor(items: seq<CountItem>, material: int): (r: Option<CountItem>)
    ensures r.Some? ==> r.value in items && r.value.material == material
    ensures r.None? ==> forall i :: i in items ==> i.material != material
  {
    if items == [] then None
    else if items[0].material == material then Some(items[0]) else ItemFor(items[1..], material)
  }

  function Rebuild(db: Db, m: Master, warehouse: int, existing: seq<CountItem>, lines: seq<CountRequest>,
          sofar: seq<CountItem>)
    : Result<seq<CountItem>>
    decreases |lines|
  {
    if lines == [] then Ok(sofar)
    else if exists i :: i in sofar && i.material == lines[0].material then Err(Conflict)
    else if lines[0].physical < 0 then Err(ReconciliationPhysicalNegative)
    else
      var kept := ItemFor(existing, lines[0].material);
      var item :- if kept.Some? then KeptItem(kept.value, lines[0])
                  else
                    var _ :- Active(m.materials, lines[0].material, NotFound, MasterDataDisabled);
                    NewItem(TakeSnapshot(db, Key(warehouse, lines[0].material)), lines[0]);
      Rebuild(db, m, warehouse, existing, lines[1..], sofar + [item])
  }

  // ---------------------------------------------------------------------------------------------
  // Posting
  // ---------------------------------------------------------------------------------------------

  // Rows written and balances moved so far.
  datatype Posting = Posting(rows: seq<Txn>, balances: map<Key, Balance>)

  function RowFor(db: Db, rows: seq<Txn>, doc: nat, n: nat, key: Key, item: CountItem): Txn {
    Txn(if item.difference > 0 then AdjustIn else AdjustOut, key, item.difference,
        if item.difference > 0 then (if item.rate.Some? then item.rate.value else 0) else item.bookAverage,
        item.amount, BalanceOf(db.balances, key).quantity + Sum(rows, QuantityOn(key)) + item.difference,
        CountSource(doc, n), None)
  }

  function MoveBy(b: Balance, item: CountItem): Result<Balance> {
    if item.difference > 0 then Inbound(b, item.difference, item.amount)
    else Outbound(b, -item.difference, -item.amount)
  }

  // Event guard, state guard, ledger row, balance.
  function PostItem(db: Db, warehouse: int, doc: nat, w: Posting, n: nat, item: CountItem): Result<Posting> {
    if item.difference == 0 then Ok(w) else
      var key := Key(warehouse, item.material);
      var b := BalanceOf(w.balances, key);
      if LastRow(db.ledger, key) != item.watermark then Err(ReconciliationBalanceChanged)
      else if b.quantity != item.bookQuantity || b.total != item.bookTotal then Err(ReconciliationBalanceChanged)
      else
        var row := RowFor(db, w.rows, doc, n, key, item);
        if !Signed(row) then Err(ValidationError) else
          var moved :- MoveBy(b, item);
          Ok(Posting(w.rows + [row], w.balances[key := moved]))
  }

  function PostItems(db: Db, warehouse: int, doc: nat, w: Posting, n: nat, items: seq<CountItem>): Result<Posting>
    decreases |items|
  {
    if items == [] then Ok(w) else
      var next :- PostItem(db, warehouse, doc, w, n, items[0]);
      PostItems(db, warehouse, doc, next, n + 1, items[1..])
  }

  function MovingKeys(warehouse: int, items: seq<CountItem>): seq<Key> {
    if items == [] then [] else
      (if items[0].difference != 0 then [Key(warehouse, items[0].material)] else []) + MovingKeys(warehouse, items[1..])
  }

  // Four eyes: who counted may only approve with the explicit permission, the flag and a reason.
  function MayPost(doc: Count, user: User, overrideFlag: bool, overrideReason: bool): Result<bool> {
    if doc.countedBy != user.id then Ok(false)
    else if !user.mayOverrideSelfApproval || !overrideFlag then Err(ReconciliationSelfApproval)
    else if !overrideReason then Err(ReconciliationOverrideReasonRequired)
    else Ok(true)
  }

  function ItemsPostable(items: seq<CountItem>): Result<()> {
    if items == [] then Ok(())
    else if items[0].physical < 0 then Err(ReconciliationPhysicalNegative)
    else if items[0].difference > 0 && (items[0].rate.None? || items[0].rate.value <= 0)
    then Err(ReconciliationValuationRateRequired)
    else ItemsPostable(items[1..])
  }

  // ---------------------------------------------------------------------------------------------
  // The services, as specified
  // ---------------------------------------------------------------------------------------------

  ghost function CreatedCount(db: Db, user: User, m: Master, warehouse: int, lines: seq<CountRequest>): Result<Db> {
    var _ :- Active(m.warehouses, warehouse, NotFound, MasterDataDisabled);
    if lines == [] then Err(ReconciliationEmptyItems) else
      var _ :- RequestsOk(m, lines, {});
      var items :- NewItems(db, warehouse, lines, []);
      Ok(db.(counts := db.counts + [Count(warehouse, user.id, CountDraft, items, 1, None, false)],
             audit := db.audit + [Audit(CountEdited, |db.counts|)]))
  }

  ghost function UpdatedCount(db: Db, m: Master, doc: nat, version: nat, lines: seq<CountRequest>): Result<Db> {
    if doc >= |db.counts| then Err(ReconciliationNotFound) else
      var c := db.counts[doc];
      if c.status != CountDraft && c.status != CountRejected then Err(ReconciliationInvalidStatus)
      else if c.version != version then Err(ReconciliationVersionConflict)
      else
        var _ :- Active(m.warehouses, c.warehouse, NotFound, MasterDataDisabled);
        var items :- Rebuild(db, m, c.warehouse, c.items, lines, []);
        Ok(db.(counts := db.counts[doc := c.(status := CountDraft, items := items, version := version + 1)],
               audit := db.audit + [Audit(CountEdited, doc)]))
  }

  ghost function SubmittedCount(db: Db, doc: nat, version: nat): Result<Db> {
    if doc >= |db.counts| then Err(ReconciliationNotFound) else
      var c := db.counts[doc];
      if c.status != CountDraft then Err(ReconciliationInvalidStatus)
      else if c.version != version then Err(ReconciliationVersionConflict)
      else if c.items == [] then Err(ReconciliationEmptyItems)
      else Ok(db.(counts := db.counts[doc := c.(status := CountPending, version := c.version + 1)],
                  audit := db.audit + [Audit(CountSubmitted, doc)]))
  }

  ghost function ApprovedCount(db: Db, user: User, doc: nat, overrideFlag: bool, overrideReason: bool): Result<Db> {
    if doc >= |db.counts| then Err(ReconciliationNotFound) else
      var c := db.counts[doc];
      if c.status != CountPending then Err(ReconciliationInvalidStatus) else
        var override :- MayPost(c, user, overrideFlag, overrideReason);
        var _ :- ItemsPostable(c.items);
        var locked := Upsert(db.balances, MovingKeys(c.warehouse, c.items));
        var w :- PostItems(db, c.warehouse, doc, Posting([], locked), 0, c.items);
        Ok(db.(counts := db.counts[doc := c.(status := CountPosted, version := c.version + 1,
                                             approvedBy := Some(user.id), selfApproved := override)],
               ledger := db.ledger + w.rows, balances := w.balances,
               audit := db.audit + [Audit(CountApproved, doc)]))
  }

  ghost function RejectedCount(db: Db, doc: nat): Result<Db> {
    if doc >= |db.counts| then Err(ReconciliationNotFound) else
      var c := db.counts[doc];
      if c.status != CountPending then Err(ReconciliationInvalidStatus)
      else Ok(db.(counts := db.counts[doc := c.(status := CountRejected, version := c.version + 1)],
                  audit := db.audit + [Audit(CountWasRejected, doc)]))
  }

  // The count moved to another status and its version counts the call; its frozen lines and every other row of every
  // table stay, but for the audit row added.
  ghost predicate OnlyMoves(db: Db, after: Db, doc: nat, to: CountStatus, action: AuditAction) {
    && doc < |db.counts| == |after.counts|
    && after.counts[doc] == db.counts[doc].(status := to, version := db.counts[doc].version + 1)
    && (forall c :: 0 <= c < |db.counts| && c != doc ==> after.counts[c] == db.counts[c])
    && after.audit == db.audit + [Audit(action, doc)]
    && after.prs == db.prs && after.prLines == db.prLines && after.nextPrLine == db.nextPrLine
    && after.approvals == db.approvals && after.pos == db.pos && after.poLines == db.poLines
    && after.sources == db.sources
    && after.receipts == db.receipts && after.receiptLines == db.receiptLines
    && after.ledger == db.ledger && after.balances == db.balances
  }

  // ---------------------------------------------------------------------------------------------
  // The same services, step by step
  // ---------------------------------------------------------------------------------------------

  method CheckRequests(m: Master, lines: seq<CountRequest>) returns (r: Result<()>)
    ensures r == RequestsOk(m, lines, {})
  {
    var seen: set<int> := {};
    for i := 0 to |lines|
      invariant RequestsOk(m, lines, {}) == RequestsOk(m, lines[i..], seen)
    {
      assert lines[i..][1..] == lines[i + 1..];
      if lines[i].material in seen { return Err(Conflict); }
      seen := seen + {lines[i].material};
      if lines[i].physical < 0 { return Err(ReconciliationPhysicalNegative); }
      var material := Active(m.materials, lines[i].material, NotFound, MasterDataDisabled);
      if material.Err? { return material; }
    }
    return Ok(());
  }

  method BuildItems(db: Db, warehouse: int, lines: seq<CountRequest>) returns (r: Result<seq<CountItem>>)
    ensures r == NewItems(db, warehouse, lines, [])
  {
    var items := [];
    for i := 0 to |lines|
      invariant NewItems(db, warehouse, lines, []) == NewItems(db, warehouse, lines[i..], items)
    {
      assert lines[i..][1..] == lines[i + 1..];
      var item := NewItem(TakeSnapshot(db, Key(warehouse, lines[i].material)), lines[i]);
      if item.Err? { return Err(item.error); }
      items := items + [item.value];
    }
    return Ok(items);
  }

  method RebuildItems(db: Db, m: Master, warehouse: int, existing: seq<CountItem>, lines: seq<CountRequest>)
    returns (r: Result<seq<CountItem>>)
    ensures r == Rebuild(db, m, warehouse, existing, lines, [])
  {
    var rebuilt: seq<CountItem> := [];
    for i := 0 to |lines|
      invariant Rebuild(db, m, warehouse, existing, lines, []) == Rebuild(db, m, warehouse, existing, lines[i..],
                                                                          rebuilt)
    {
      assert lines[i..][1..] == lines[i + 1..];
      var line := lines[i];
      if exists x :: x in rebuilt && x.material == line.material { return Err(Conflict); }
      if line.physical < 0 { return Err(ReconciliationPhysicalNegative); }
      var kept := ItemFor(existing, line.material);
      var item;
      if kept.None? {
        var material := Active(m.materials, line.material, NotFound, MasterDataDisabled);
        if material.Err? { return Err(material.error); }
        item := NewItem(TakeSnapshot(db, Key(warehouse, line.material)), line);
      } else {
        item := KeptItem(kept.value, line);
      }
      if item.Err? { return Err(item.error); }
      rebuilt := rebuilt + [item.value];
    }
    return Ok(rebuilt);
  }

  method CreateCount(s: Session, user: User, m: Master, warehouse: int,
          lines: seq<CountRequest>) returns (reply: Result<()>)
    modifies s
    ensures Settles(CreatedCount(old(s.db), user, m, warehouse, lines), old(s.db), s.db, reply)
  {
    var active := Active(m.warehouses, warehouse, NotFound, MasterDataDisabled);
    if active.Err? { return active; }
    if lines == [] { return Err(ReconciliationEmptyItems); }
    var requests := CheckRequests(m, lines);
    if requests.Err? { return requests; }
    var items := BuildItems(s.db, warehouse, lines);
    if items.Err? { return Err(items.error); }
    var doc := |s.db.counts|;
    s.db := s.db.(counts := s.db.counts + [Count(warehouse, user.id, CountDraft, items.value, 1, None, false)],
                  audit := s.db.audit + [Audit(CountEdited, doc)]);
    return Ok(());
  }

  method UpdateCount(s: Session, m: Master, doc: nat, version: nat,
          lines: seq<CountRequest>) returns (reply: Result<()>)
    modifies s
    ensures Settles(UpdatedCount(old(s.db), m, doc, version, lines), old(s.db), s.db, reply)
  {
    if doc >= |s.db.counts| { return Err(ReconciliationNotFound); }
    var c := s.db.counts[doc];
    if c.status != CountDraft && c.status != CountRejected { return Err(ReconciliationInvalidStatus); }
    if c.version != version { return Err(ReconciliationVersionConflict); }
    var active := Active(m.warehouses, c.warehouse, NotFound, MasterDataDisabled);
    if active.Err? { return active; }
    var items := RebuildItems(s.db, m, c.warehouse, c.items, lines);
    if items.Err? { return Err(items.error); }
    c := c.(status := CountDraft, items := items.value, version := version + 1);
    s.db := s.db.(counts := s.db.counts[doc := c], audit := s.db.audit + [Audit(CountEdited, doc)]);
    return Ok(());
  }

  method SubmitCount(s: Session, doc: nat, version: nat) returns (reply: Result<()>)
    modifies s
    ensures Settles(SubmittedCount(old(s.db), doc, version), old(s.db), s.db, reply)
    ensures reply.Ok? <==>
      && doc < |old(s.db).counts| && old(s.db).counts[doc].status == CountDraft
      && old(s.db).counts[doc].version == version && old(s.db).counts[doc].items != []
    ensures reply.Ok? ==> OnlyMoves(old(s.db), s.db, doc, CountPending, CountSubmitted)
  {
    if doc >= |s.db.counts| { return Err(ReconciliationNotFound); }
    var c := s.db.counts[doc];
    if c.status != CountDraft { return Err(ReconciliationInvalidStatus); }
    if c.version != version { return Err(ReconciliationVersionConflict); }
    if c.items == [] { return Err(ReconciliationEmptyItems); }
    c := c.(status := CountPending, version := c.version + 1);
    s.db := s.db.(counts := s.db.counts[doc := c], audit := s.db.audit + [Audit(CountSubmitted, doc)]);
    return Ok(());
  }

  method CheckPostable(items: seq<CountItem>) returns (r: Result<()>)
    ensures r == ItemsPostable(items)
  {
    for i := 0 to |items|
      invariant ItemsPostable(items) == ItemsPostable(items[i..])
    {
      assert items[i..][1..] == items[i + 1..];
      if items[i].physical < 0 { return Err(ReconciliationPhysicalNegative); }
      if items[i].difference > 0 && (items[i].rate.None? || items[i].rate.value <= 0) {
        return Err(ReconciliationValuationRateRequired);
      }
    }
    return Ok(());
  }

  // One line of the posting loop: event guard, state guard, ledger row, balance.
  method PostOne(db: Db, warehouse: int, doc: nat, w: Posting, n: nat, item: CountItem) returns (r: Result<Posting>)
    ensures r == PostItem(db, warehouse, doc, w, n, item)
  {
    if item.difference == 0 { return Ok(w); }
    var key := Key(warehouse, item.material);
    var b := BalanceOf(w.balances, key);
    if LastRow(db.ledger, key) != item.watermark { return Err(ReconciliationBalanceChanged); }
    if b.quantity != item.bookQuantity { return Err(ReconciliationBalanceChanged); }
    if b.total != item.bookTotal { return Err(ReconciliationBalanceChanged); }
    var written := WriteTransaction(w.rows, RowFor(db, w.rows, doc, n, key, item));
    if written.Err? { return Err(ValidationError); }
    var moved;
    if item.difference > 0 {
      moved := ApplyInbound(b, item.difference, item.amount);
    } else {
      moved := ApplyOutbound(b, -item.difference, -item.amount);
    }
    if moved.Err? { return Err(moved.error); }
    return Ok(Posting(written.value, w.balances[key := moved.value]));
  }

  lemma {:induction false} PostItemsNext(db: Db, warehouse: int, doc: nat, items: seq<CountItem>, n: nat, w: Posting)
    requires n < |items|
    ensures PostItems(db, warehouse, doc, w, n, items[n..])
      == match PostItem(db, warehouse, doc, w, n, items[n])
         case Ok(next) => PostItems(db, warehouse, doc, next, n + 1, items[n + 1..])
         case Err(e) => Err(e)
  {
    assert items[n..][0] == items[n] && items[n..][1..] == items[n + 1..];
  }

  // The posting loop over all lines, in line order; the first refusal ends it.
  method PostAll(db: Db, warehouse: int, doc: nat, items: seq<CountItem>) returns (r: Result<Posting>)
    ensures r == PostItems(db, warehouse, doc, Posting([], Upsert(db.balances, MovingKeys(warehouse, items))), 0, items)
  {
    var _, locked := LockBalances(db.balances, MovingKeys(warehouse, items));
    var w := Posting([], locked);
    assert items[0..] == items;
    for i := 0 to |items|
      invariant PostItems(db, warehouse, doc, Posting([], locked), 0, items) == PostItems(db, warehouse, doc, w, i,
                                                                                          items[i..])
    {
      PostItemsNext(db, warehouse, doc, items, i, w);
      var next := PostOne(db, warehouse, doc, w, i, items[i]);
      if next.Err? { return next; }
      w := next.value;
    }
    return Ok(w);
  }

  method ApproveCount(s: Session, user: User, doc: nat, overrideFlag: bool,
          overrideReason: bool) returns (reply: Result<()>)
    modifies s
    ensures Settles(ApprovedCount(old(s.db), user, doc, overrideFlag, overrideReason), old(s.db), s.db, reply)
  {
    var saved := s.db;
    if doc >= |s.db.counts| { return Err(ReconciliationNotFound); }
    var c := s.db.counts[doc];
    if c.status != CountPending { return Err(ReconciliationInvalidStatus); }
    var override := MayPost(c, user, overrideFlag, overrideReason);
    if override.Err? { return Err(override.error); }
    var postable := CheckPostable(c.items);
    if postable.Err? { return postable; }
    var claimed := c.(status := CountPosted, version := c.version + 1, approvedBy := Some(user.id),
                      selfApproved := override.value);
    s.db := s.db.(counts := s.db.counts[doc := claimed]);
    var w := PostAll(saved, c.warehouse, doc, c.items);
    if w.Err? {
      s.Rollback(saved);
      return Err(w.error);
    }
    s.db := s.db.(ledger := s.db.ledger + w.value.rows, balances := w.value.balances,
                  audit := s.db.audit + [Audit(CountApproved, doc)]);
    return Ok(());
  }

  method RejectCount(s: Session, doc: nat) returns (reply: Result<()>)
    modifies s
    ensures Settles(RejectedCount(old(s.db), doc), old(s.db), s.db, reply)
    ensures reply.Ok? <==> doc < |old(s.db).counts| && old(s.db).counts[doc].status == CountPending
    ensures reply.Ok? ==> OnlyMoves(old(s.db), s.db, doc, CountRejected, CountWasRejected)
  {
    if doc >= |s.db.counts| { return Err(ReconciliationNotFound); }
    var c := s.db.counts[doc];
    if c.status != CountPending { return Err(ReconciliationInvalidStatus); }
    c := c.(status := CountRejected, version := c.version + 1);
    s.db := s.db.(counts := s.db.counts[doc := c], audit := s.db.audit + [Audit(CountWasRejected, doc)]);
    return Ok(());
  }
}
