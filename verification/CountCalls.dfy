/** What every call on counts asks of its caller and its payload, and exactly what it leaves in the tables. */
module CountCalls {
  import opened Sums
  import opened Money
  import opened Tables
  import opened Inventory
  import opened Counts
  import opened CountRules
  import opened Validity
  import CountLaws
  import StockLaws

  // ---------------------------------------------------------------------------------------------
  // One line
  // ---------------------------------------------------------------------------------------------

  predicate GivesRate(line: CountRequest) {
    line.rate.Some? && line.rate.value > 0
  }

  // The line says what the request counted, valued against its own frozen book: a surplus at the requested rate, a loss
  // at the frozen average cost, whatever rate was sent.
  predicate CountedAs(item: CountItem, line: CountRequest) {
    && item.material == line.material && item.physical == line.physical
    && item.difference == line.physical - item.bookQuantity
    && (item.difference > 0 ==>
          GivesRate(line) && item.rate == line.rate && item.amount == LineAmount(item.difference, line.rate.value))
    && (item.difference < 0 ==> item.rate == None && item.amount == -LineAmount(-item.difference, item.bookAverage))
    && (item.difference == 0 ==> item.rate == None && item.amount == 0)
  }

  // The book as it is now.
  predicate FrozenNow(db: Db, warehouse: int, item: CountItem) {
    var key := Key(warehouse, item.material);
    Book(item) == BalanceOf(db.balances, key) && item.watermark == LastRow(db.ledger, key)
  }

  predicate FrozenLike(item: CountItem, was: CountItem) {
    Book(item) == Book(was) && item.watermark == was.watermark
  }

  lemma {:induction false} NewItemIs(db: Db, warehouse: int, line: CountRequest)
    ensures var r, book := NewItem(TakeSnapshot(db, Key(warehouse, line.material)), line),
                           BalanceOf(db.balances, Key(warehouse, line.material));
      && (r.Ok? <==> (line.physical > book.quantity ==> GivesRate(line)))
      && (r.Ok? ==> CountedAs(r.value, line) && FrozenNow(db, warehouse, r.value))
      && (r.Err? ==> r.error == ReconciliationValuationRateRequired)
  {
  }

  lemma {:induction false} KeptItemIs(item: CountItem, line: CountRequest)
    requires item.material == line.material
    ensures KeptItem(item, line).Ok? <==> (line.physical > item.bookQuantity ==> GivesRate(line))
    ensures KeptItem(item, line).Ok? ==>
      CountedAs(KeptItem(item, line).value, line) && FrozenLike(KeptItem(item, line).value, item)
    ensures KeptItem(item, line).Err? ==> KeptItem(item, line).error == ReconciliationValuationRateRequired
  {
  }

  // ---------------------------------------------------------------------------------------------
  // create_reconciliation
  // ---------------------------------------------------------------------------------------------

  predicate SeenBefore(lines: seq<CountRequest>, i: nat)
    requires i < |lines|
  {
    exists j :: 0 <= j < i && lines[j].material == lines[i].material
  }

  predicate RequestOk(m: Master, lines: seq<CountRequest>, i: nat)
    requires i < |lines|
  {
    !SeenBefore(lines, i) && lines[i].physical >= 0 && IsActive(m.materials, lines[i].material)
  }

  // Why line i is refused.
  predicate RequestRefusal(m: Master, lines: seq<CountRequest>, i: nat, e: ErrorCode)
    requires i < |lines|
  {
    if SeenBefore(lines, i) then e == Conflict
    else if lines[i].physical < 0 then e == ReconciliationPhysicalNegative
    else if lines[i].material !in m.materials then e == NotFound
    else !m.materials[lines[i].material] && e == MasterDataDisabled
  }

  predicate FirstRequestRefusal(m: Master, lines: seq<CountRequest>, e: ErrorCode) {
    exists i :: 0 <= i < |lines| && RequestRefusal(m, lines, i, e) && forall j :: 0 <= j < i ==> RequestOk(m, lines, j)
  }

  // The checks on lines[n..], with the materials of lines[..n] seen.
  lemma {:induction false} RequestsOkIs(m: Master, lines: seq<CountRequest>, n: nat, seen: set<int>)
    requires n <= |lines| && forall i :: 0 <= i < n ==> RequestOk(m, lines, i)
    requires forall x :: x in seen <==> exists j :: 0 <= j < n && lines[j].material == x
    ensures RequestsOk(m, lines[n..], seen).Ok? <==> forall i :: 0 <= i < |lines| ==> RequestOk(m, lines, i)
    ensures RequestsOk(m, lines[n..], seen).Err? ==>
      FirstRequestRefusal(m, lines, RequestsOk(m, lines[n..], seen).error)
    decreases |lines| - n
  {
    if n < |lines| {
      assert lines[n..][0] == lines[n] && lines[n..][1..] == lines[n + 1..];
      assert SeenBefore(lines, n) <==> lines[n].material in seen;
      if RequestOk(m, lines, n) {
        RequestsOkIs(m, lines, n + 1, seen + {lines[n].material});
      } else {
        assert RequestRefusal(m, lines, n, RequestsOk(m, lines[n..], seen).error);
      }
    }
  }

  // Item i freezes and counts line i.
  predicate CountsNow(db: Db, warehouse: int, lines: seq<CountRequest>, items: seq<CountItem>, i: nat)
    requires i < |lines|
  {
    i < |items| && CountedAs(items[i], lines[i]) && FrozenNow(db, warehouse, items[i])
  }

  lemma {:induction false} NewItemsIs(db: Db, warehouse: int, lines: seq<CountRequest>, sofar: seq<CountItem>)
    requires |sofar| <= |lines|
    requires forall i :: 0 <= i < |sofar| ==> CountsNow(db, warehouse, lines, sofar, i)
    ensures var r := NewItems(db, warehouse, lines[|sofar|..], sofar);
      && (r.Ok? <==> forall i :: |sofar| <= i < |lines| ==> CountLaws.HasRate(db, warehouse, lines[i]))
      && (r.Ok? ==>
            |r.value| == |lines| && forall i :: 0 <= i < |lines| ==> CountsNow(db, warehouse, lines, r.value, i))
      && (r.Err? ==> r.error == ReconciliationValuationRateRequired)
    decreases |lines| - |sofar|
  {
    hide NewItem, CountedAs, FrozenNow;
    var n := |sofar|;
    if n < |lines| {
      assert lines[n..][0] == lines[n] && lines[n..][1..] == lines[n + 1..];
      NewItemIs(db, warehouse, lines[n]);
      var item := NewItem(TakeSnapshot(db, Key(warehouse, lines[n].material)), lines[n]);
      if item.Ok? {
        var more := sofar + [item.value];
        forall i | 0 <= i < |more| ensures CountsNow(db, warehouse, lines, more, i) {
          if i < n { assert CountsNow(db, warehouse, lines, sofar, i); }
        }
        NewItemsIs(db, warehouse, lines, more);
      }
    }
  }

  // create_reconciliation succeeds exactly for an active warehouse and a payload of distinct active materials, nothing
  // negative, every surplus with a positive rate; it adds a draft that freezes and values each line as of now.
  lemma {:induction false} CreatedCountIs(db: Db, user: User, m: Master, warehouse: int, lines: seq<CountRequest>)
    ensures var r, c := CreatedCount(db, user, m, warehouse, lines), |db.counts|;
      && (r.Ok? <==>
            && IsActive(m.warehouses, warehouse) && lines != []
            && (forall i :: 0 <= i < |lines| ==> RequestOk(m, lines, i))
            && (forall i :: 0 <= i < |lines| ==> CountLaws.HasRate(db, warehouse, lines[i])))
      && (r.Ok? ==>
            var after := r.value;
            && |after.counts| == c + 1 && after.counts[..c] == db.counts
            && |after.counts[c].items| == |lines|
            && after.counts[c] == Count(warehouse, user.id, CountDraft, after.counts[c].items, 1, None, false)
            && (forall i :: 0 <= i < |lines| ==> CountsNow(db, warehouse, lines, after.counts[c].items, i))
            && after == db.(counts := after.counts, audit := db.audit + [Audit(CountEdited, c)]))
      && (r.Err? ==>
            if warehouse !in m.warehouses then r.error == NotFound
            else if !m.warehouses[warehouse] then r.error == MasterDataDisabled
            else if lines == [] then r.error == ReconciliationEmptyItems
            else if forall i :: 0 <= i < |lines| ==> RequestOk(m, lines, i)
            then r.error == ReconciliationValuationRateRequired
            else FirstRequestRefusal(m, lines, r.error))
  {
    hide RequestsOk, NewItems, RequestOk, CountLaws.HasRate, CountsNow, FirstRequestRefusal;
    NothingSeen(m, lines);
    AllNew(db, warehouse, lines);
  }

  lemma {:induction false} NothingSeen(m: Master, lines: seq<CountRequest>)
    ensures RequestsOk(m, lines, {}).Ok? <==> forall i :: 0 <= i < |lines| ==> RequestOk(m, lines, i)
    ensures RequestsOk(m, lines, {}).Err? ==> FirstRequestRefusal(m, lines, RequestsOk(m, lines, {}).error)
  {
    assert lines[0..] == lines;
    RequestsOkIs(m, lines, 0, {});
  }

  lemma {:induction false} AllNew(db: Db, warehouse: int, lines: seq<CountRequest>)
    ensures var r := NewItems(db, warehouse, lines, []);
      && (r.Ok? <==> forall i :: 0 <= i < |lines| ==> CountLaws.HasRate(db, warehouse, lines[i]))
      && (r.Ok? ==>
            |r.value| == |lines| && forall i :: 0 <= i < |lines| ==> CountsNow(db, warehouse, lines, r.value, i))
      && (r.Err? ==> r.error == ReconciliationValuationRateRequired)
  {
    assert lines[0..] == lines;
    NewItemsIs(db, warehouse, lines, []);
  }

  // ---------------------------------------------------------------------------------------------
  // update_reconciliation
  // ---------------------------------------------------------------------------------------------

  // Line n of the count is about this material.
  predicate IsAbout(items: seq<CountItem>, material: int, n: nat) {
    n < |items| && items[n].material == material
  }

  predicate IsNew(items: seq<CountItem>, material: int) {
    forall n :: 0 <= n < |items| ==> !IsAbout(items, material, n)
  }

  // A material the count already has is not stopped by being disabled since, and needs a rate for a surplus over its
  // frozen book; a new one is checked against the tables as they are.
  predicate EditOk(db: Db, m: Master, warehouse: int, existing: seq<CountItem>, lines: seq<CountRequest>, i: nat)
    requires i < |lines|
  {
    && !SeenBefore(lines, i) && lines[i].physical >= 0
    && (IsNew(existing, lines[i].material) ==>
          IsActive(m.materials, lines[i].material) && CountLaws.HasRate(db, warehouse, lines[i]))
    && (forall n :: 0 <= n < |existing| && IsAbout(existing, lines[i].material, n) ==>
          lines[i].physical <= existing[n].bookQuantity || GivesRate(lines[i]))
  }

  predicate EditRefusal(db: Db, m: Master, warehouse: int, existing: seq<CountItem>, lines: seq<CountRequest>, i: nat,
          e: ErrorCode)
    requires i < |lines|
  {
    if SeenBefore(lines, i) then e == Conflict
    else if lines[i].physical < 0 then e == ReconciliationPhysicalNegative
    else if IsNew(existing, lines[i].material) && lines[i].material !in m.materials then e == NotFound
    else if IsNew(existing, lines[i].material) && !m.materials[lines[i].material] then e == MasterDataDisabled
    else !EditOk(db, m, warehouse, existing, lines, i) && e == ReconciliationValuationRateRequired
  }

  predicate FirstEditRefusal(db: Db, m: Master, warehouse: int, existing: seq<CountItem>, lines: seq<CountRequest>,
          e: ErrorCode) {
    exists i :: 0 <= i < |lines| && EditRefusal(db, m, warehouse, existing, lines, i, e) && forall j :: 0 <= j < i ==>
      EditOk(db, m, warehouse, existing, lines, j)
  }

  // Item i counts line i, against the book frozen for its material before, or against the book as it is now.
  predicate Recounts(db: Db, warehouse: int, existing: seq<CountItem>, lines: seq<CountRequest>, items: seq<CountItem>,
          i: nat)
    requires i < |lines|
  {
    && i < |items| && CountedAs(items[i], lines[i])
    && (IsNew(existing, lines[i].material) ==> FrozenNow(db, warehouse, items[i]))
    && (forall n :: 0 <= n < |existing| && IsAbout(existing, lines[i].material, n) ==>
          FrozenLike(items[i], existing[n]))
  }

  lemma {:induction false} OneForEachMaterial(existing: seq<CountItem>, material: int)
    requires DistinctMaterials(existing)
    ensures ItemFor(existing, material).None? <==> IsNew(existing, material)
    ensures ItemFor(existing, material).Some? ==>
      forall n :: 0 <= n < |existing| && IsAbout(existing, material, n) ==>
        existing[n] == ItemFor(existing, material).value
  {
    var r := ItemFor(existing, material);
    if r.Some? {
      var k :| 0 <= k < |existing| && existing[k] == r.value;
      assert IsAbout(existing, material, k);
    }
  }

  // One line of the edit.
  function Edited(db: Db, m: Master, warehouse: int, existing: seq<CountItem>, line: CountRequest): Result<CountItem> {
    var kept := ItemFor(existing, line.material);
    if kept.Some? then KeptItem(kept.value, line)
    else
      var _ :- Active(m.materials, line.material, NotFound, MasterDataDisabled);
      NewItem(TakeSnapshot(db, Key(warehouse, line.material)), line)
  }

  lemma {:induction false} EditedIs(db: Db, m: Master, warehouse: int, existing: seq<CountItem>,
          lines: seq<CountRequest>, items: seq<CountItem>, i: nat)
    requires DistinctMaterials(existing) && i < |lines| && !SeenBefore(lines, i) && lines[i].physical >= 0
    ensures var r := Edited(db, m, warehouse, existing, lines[i]);
      && (r.Ok? <==> EditOk(db, m, warehouse, existing, lines, i))
      && (r.Ok? && i < |items| && items[i] == r.value ==> Recounts(db, warehouse, existing, lines, items, i))
      && (r.Ok? ==> r.value.material == lines[i].material)
      && (r.Err? ==> EditRefusal(db, m, warehouse, existing, lines, i, r.error))
  {
    hide NewItem, KeptItem, DistinctMaterials, ItemFor;
    OneForEachMaterial(existing, lines[i].material);
    var kept := ItemFor(existing, lines[i].material);
    if kept.Some? {
      KeptItemIs(kept.value, lines[i]);
      var n :| 0 <= n < |existing| && existing[n] == kept.value;
      assert IsAbout(existing, lines[i].material, n);
    } else {
      NewItemIs(db, warehouse, lines[i]);
    }
  }

  lemma {:induction false} RebuildUnfolds(db: Db, m: Master, warehouse: int, existing: seq<CountItem>,
          lines: seq<CountRequest>, sofar: seq<CountItem>)
    requires |sofar| < |lines| && forall i :: 0 <= i < |sofar| ==> sofar[i].material == lines[i].material
    ensures var n := |sofar|;
      Rebuild(db, m, warehouse, existing, lines[n..], sofar)
        == if SeenBefore(lines, n) then Err(Conflict)
           else if lines[n].physical < 0 then Err(ReconciliationPhysicalNegative)
           else match Edited(db, m, warehouse, existing, lines[n])
                case Ok(item) => Rebuild(db, m, warehouse, existing, lines[n + 1..], sofar + [item])
                case Err(e) => Err(e)
  {
    var n := |sofar|;
    assert lines[n..][0] == lines[n] && lines[n..][1..] == lines[n + 1..];
    assert SeenBefore(lines, n) <==> exists x :: x in sofar && x.material == lines[n].material;
  }

  lemma {:induction false} RebuildIs(db: Db, m: Master, warehouse: int, existing: seq<CountItem>,
          lines: seq<CountRequest>, sofar: seq<CountItem>)
    requires DistinctMaterials(existing) && |sofar| <= |lines|
    requires forall i :: 0 <= i < |sofar| ==>
      EditOk(db, m, warehouse, existing, lines, i) && Recounts(db, warehouse, existing, lines, sofar, i)
    ensures var r := Rebuild(db, m, warehouse, existing, lines[|sofar|..], sofar);
      && (r.Ok? <==> forall i :: 0 <= i < |lines| ==> EditOk(db, m, warehouse, existing, lines, i))
      && (r.Ok? ==>
            && |r.value| == |lines|
            && forall i :: 0 <= i < |lines| ==> Recounts(db, warehouse, existing, lines, r.value, i))
      && (r.Err? ==> FirstEditRefusal(db, m, warehouse, existing, lines, r.error))
    decreases |lines| - |sofar|
  {
    var n := |sofar|;
    if n < |lines| {
      forall i | 0 <= i < n ensures sofar[i].material == lines[i].material {
        assert Recounts(db, warehouse, existing, lines, sofar, i);
      }
      RebuildUnfolds(db, m, warehouse, existing, lines, sofar);
      hide Edited, EditOk, Recounts, EditRefusal, DistinctMaterials, Rebuild;
      if !SeenBefore(lines, n) && lines[n].physical >= 0 {
        var item := Edited(db, m, warehouse, existing, lines[n]);
        if item.Ok? {
          var more := sofar + [item.value];
          EditedIs(db, m, warehouse, existing, lines, more, n);
          forall i | 0 <= i < |more|
            ensures EditOk(db, m, warehouse, existing, lines, i) && Recounts(db, warehouse, existing, lines, more, i)
          {
            if i < n { RecountStays(db, warehouse, existing, lines, sofar, more, i); }
          }
          RebuildIs(db, m, warehouse, existing, lines, more);
        } else {
          EditedIs(db, m, warehouse, existing, lines, sofar, n);
        }
      } else {
        RepeatedOrNegative(db, m, warehouse, existing, lines, n);
      }
    }
  }

  lemma {:induction false} RecountStays(db: Db, warehouse: int, existing: seq<CountItem>, lines: seq<CountRequest>,
          items: seq<CountItem>, items2: seq<CountItem>, i: nat)
    requires i < |lines| && i < |items2| && Recounts(db, warehouse, existing, lines, items, i)
    requires items2[i] == items[i]
    ensures Recounts(db, warehouse, existing, lines, items2, i)
  {
  }

  lemma {:induction false} RepeatedOrNegative(db: Db, m: Master, warehouse: int, existing: seq<CountItem>,
          lines: seq<CountRequest>, i: nat)
    requires i < |lines| && (SeenBefore(lines, i) || lines[i].physical < 0)
    ensures !EditOk(db, m, warehouse, existing, lines, i)
    ensures EditRefusal(db, m, warehouse, existing, lines, i,
                        if SeenBefore(lines, i) then Conflict else ReconciliationPhysicalNegative)
  {
  }

  lemma {:induction false} RebuiltFromStart(db: Db, m: Master, c: Count, lines: seq<CountRequest>)
    requires DistinctMaterials(c.items)
    ensures var r := Rebuild(db, m, c.warehouse, c.items, lines, []);
      && (r.Ok? <==> forall i :: 0 <= i < |lines| ==> EditOk(db, m, c.warehouse, c.items, lines, i))
      && (r.Ok? ==>
            && |r.value| == |lines|
            && forall i :: 0 <= i < |lines| ==> Recounts(db, c.warehouse, c.items, lines, r.value, i))
      && (r.Err? ==> FirstEditRefusal(db, m, c.warehouse, c.items, lines, r.error))
  {
    assert lines[0..] == lines;
    RebuildIs(db, m, c.warehouse, c.items, lines, []);
  }

  predicate Editable(db: Db, doc: nat, version: nat) {
    doc < |db.counts| && db.counts[doc].status in {CountDraft, CountRejected} && db.counts[doc].version == version
  }

  // update_reconciliation succeeds exactly on a draft or rejected count at the given version in an active warehouse,
  // with a payload in order; it recounts each line against its frozen book, or freezes it anew. The count has one line
  // per material, as every stored count does.
  lemma {:induction false} UpdatedCountIs(db: Db, m: Master, doc: nat, version: nat, lines: seq<CountRequest>)
    requires doc < |db.counts| ==> DistinctMaterials(db.counts[doc].items)
    ensures var r := UpdatedCount(db, m, doc, version, lines);
      && (r.Ok? <==>
            && Editable(db, doc, version) && IsActive(m.warehouses, db.counts[doc].warehouse)
            && forall i :: 0 <= i < |lines| ==>
                 EditOk(db, m, db.counts[doc].warehouse, db.counts[doc].items, lines, i))
      && (r.Ok? ==>
            var was, after := db.counts[doc], r.value;
            && |after.counts| == |db.counts| && |after.counts[doc].items| == |lines|
            && after.counts[doc] == was.(status := CountDraft, items := after.counts[doc].items, version := version + 1)
            && (forall i :: 0 <= i < |lines| ==>
                  Recounts(db, was.warehouse, was.items, lines, after.counts[doc].items, i))
            && after == db.(counts := db.counts[doc := after.counts[doc]],
                            audit := db.audit + [Audit(CountEdited, doc)]))
      && (r.Err? ==>
            if doc >= |db.counts| then r.error == ReconciliationNotFound
            else if db.counts[doc].status !in {CountDraft, CountRejected} then r.error == ReconciliationInvalidStatus
            else if db.counts[doc].version != version then r.error == ReconciliationVersionConflict
            else if db.counts[doc].warehouse !in m.warehouses then r.error == NotFound
            else if !m.warehouses[db.counts[doc].warehouse] then r.error == MasterDataDisabled
            else FirstEditRefusal(db, m, db.counts[doc].warehouse, db.counts[doc].items, lines, r.error))
  {
    hide Rebuild, EditOk, Recounts, FirstEditRefusal, DistinctMaterials;
    if doc < |db.counts| { RebuiltFromStart(db, m, db.counts[doc], lines); }
  }

  lemma {:induction false} StoredCountIsDistinct(db: Db, doc: nat)
    requires Valid(db) && doc < |db.counts|
    ensures DistinctMaterials(db.counts[doc].items)
  {
    assert CountFits(db.ledger, db.counts[doc]);
  }

  // ---------------------------------------------------------------------------------------------
  // Submitting, rejecting, approving
  // ---------------------------------------------------------------------------------------------

  lemma {:induction false} SubmittedCountIs(db: Db, doc: nat, version: nat)
    ensures var r := SubmittedCount(db, doc, version);
      && (r.Ok? <==>
            && doc < |db.counts| && db.counts[doc].status == CountDraft && db.counts[doc].version == version
            && db.counts[doc].items != [])
      && (r.Ok? ==> OnlyMoves(db, r.value, doc, CountPending, CountSubmitted))
      && (r.Err? ==>
            if doc >= |db.counts| then r.error == ReconciliationNotFound
            else if db.counts[doc].status != CountDraft then r.error == ReconciliationInvalidStatus
            else if db.counts[doc].version != version then r.error == ReconciliationVersionConflict
            else r.error == ReconciliationEmptyItems)
  {
  }

  lemma {:induction false} RejectedCountIs(db: Db, doc: nat)
    ensures var r := RejectedCount(db, doc);
      && (r.Ok? <==> doc < |db.counts| && db.counts[doc].status == CountPending)
      && (r.Ok? ==> OnlyMoves(db, r.value, doc, CountRejected, CountWasRejected))
      && (r.Err? ==> r.error == (if doc >= |db.counts| then ReconciliationNotFound else ReconciliationInvalidStatus))
  {
  }

  // Somebody else than the counter, or the counter with the permission, the flag and a reason.
  predicate MayApprove(c: Count, user: User, overrideFlag: bool, overrideReason: bool) {
    user.id != c.countedBy || (user.mayOverrideSelfApproval && overrideFlag && overrideReason)
  }

  // The line is as it was frozen, and its adjustment does not take more value than there is.
  predicate StillStands(db: Db, warehouse: int, item: CountItem) {
    item.difference == 0 || (LastRow(db.ledger, Key(warehouse, item.material)) == item.watermark
                             && item.bookTotal + item.amount >= 0)
  }

  // In every reachable state approve_reconciliation succeeds exactly on a pending count whose approver may approve it
  // and whose differing lines all still stand.
  lemma {:induction false} ApprovedCountIff(db: Db, user: User, doc: nat, overrideFlag: bool, overrideReason: bool)
    requires Valid(db)
    ensures var r := ApprovedCount(db, user, doc, overrideFlag, overrideReason);
      && (r.Ok? <==>
            && doc < |db.counts| && db.counts[doc].status == CountPending
            && MayApprove(db.counts[doc], user, overrideFlag, overrideReason)
            && forall n :: 0 <= n < |db.counts[doc].items| ==>
                 StillStands(db, db.counts[doc].warehouse, db.counts[doc].items[n]))
      && (r.Err? ==>
            if doc >= |db.counts| then r.error == ReconciliationNotFound
            else if db.counts[doc].status != CountPending then r.error == ReconciliationInvalidStatus
            else if !MayApprove(db.counts[doc], user, overrideFlag, overrideReason)
            then r.error == (if user.mayOverrideSelfApproval && overrideFlag then ReconciliationOverrideReasonRequired
                             else ReconciliationSelfApproval)
            else r.error in {ReconciliationBalanceChanged, InventoryBalanceMismatch})
  {
    hide Valid, PostItems;
    CountLaws.ApproveSucceedsIff(db, user, doc, overrideFlag, overrideReason);
    if doc < |db.counts| {
      StandingIsPostable(db, doc);
      if db.counts[doc].status == CountPending && MayApprove(db.counts[doc], user, overrideFlag, overrideReason) {
        StoredPostingErrors(db, user, doc, overrideFlag, overrideReason);
      }
    }
  }

  lemma {:induction false} StandingIsPostable(db: Db, doc: nat)
    requires doc < |db.counts|
    ensures var c := db.counts[doc];
      forall n :: 0 <= n < |c.items| ==>
        StillStands(db, c.warehouse, c.items[n]) == Postable(db.ledger, c.warehouse, c.items[n])
  {
  }

  lemma {:induction false} StoredPostingErrors(db: Db, user: User, doc: nat, overrideFlag: bool, overrideReason: bool)
    requires Valid(db) && doc < |db.counts| && db.counts[doc].status == CountPending
    requires MayPost(db.counts[doc], user, overrideFlag, overrideReason).Ok?
    ensures var r := ApprovedCount(db, user, doc, overrideFlag, overrideReason);
      r.Err? ==> r.error in {ReconciliationBalanceChanged, InventoryBalanceMismatch}
  {
    assert CountFits(db.ledger, db.counts[doc]);
    hide CountFits, StockOk, ApprovedCount, PostedSoFar;
    ApprovedCountIs(db, user, doc, overrideFlag, overrideReason);
    PostingMeans(db, doc);
  }

  // One row for each differing line from line n on, in line order.
  function AdjustmentRows(warehouse: int, doc: nat, items: seq<CountItem>, n: nat): seq<Txn>
    requires n <= |items|
    decreases |items| - n
  {
    if n == |items| then []
    else (if items[n].difference == 0 then [] else [RowOf(warehouse, doc, items[n], n)])
         + AdjustmentRows(warehouse, doc, items, n + 1)
  }

  lemma {:induction false} LineZeroSettles(warehouse: int, doc: nat, items: seq<CountItem>, n: nat, w: Posting)
    requires n < |items| && items[n].difference == 0
    requires forall m :: 0 <= m < n ==> Settled(warehouse, doc, w, items[m], m)
    ensures forall m :: 0 <= m < n + 1 ==> Settled(warehouse, doc, w, items[m], m)
  {
  }

  lemma {:induction false} BalanceStillLocked(db: Db, locked: map<Key, Balance>, w: Posting, key: Key)
    requires StockSoFar(db.ledger, locked, w) && key !in KeysOf(w.rows)
    ensures BalanceOf(w.balances, key) == BalanceOf(locked, key)
  {
    UntouchedBalance(locked, w.rows, key);
  }

  lemma {:induction false} NextLinePosts(db: Db, locked: map<Key, Balance>, warehouse: int, doc: nat,
          items: seq<CountItem>, n: nat, w: Posting)
    requires CanPost(db, locked, warehouse, items) && n < |items|
    requires PostedSoFar(db, locked, warehouse, doc, items, n, w)
    requires PostItem(db, warehouse, doc, w, n, items[n]).Ok?
    ensures var next := PostItem(db, warehouse, doc, w, n, items[n]).value;
      && PostedSoFar(db, locked, warehouse, doc, items, n + 1, next)
      && next.rows == w.rows + if items[n].difference == 0 then [] else [RowOf(warehouse, doc, items[n], n)]
  {
    hide StockSoFar, Settled, RowsSoFar, ItemReady, RowOf, Adjusted;
    if items[n].difference == 0 {
      SkippedRows(db.ledger, warehouse, doc, items, n, n + 1, w.rows);
      LineZeroSettles(warehouse, doc, items, n, w);
    } else {
      hide PostItem;
      KeyStillUnposted(db.ledger, warehouse, doc, items, n, w.rows);
      BalanceStillLocked(db, locked, w, Key(warehouse, items[n].material));
      PostItemMeans(db, locked, warehouse, doc, w, n, items[n]);
      NextLineSettles(db, locked, warehouse, doc, items, n, w);
    }
  }

  lemma {:induction false} PostedRowsAre(db: Db, locked: map<Key, Balance>, warehouse: int, doc: nat,
          items: seq<CountItem>, n: nat, w: Posting)
    requires CanPost(db, locked, warehouse, items) && n <= |items|
    requires PostedSoFar(db, locked, warehouse, doc, items, n, w)
    requires PostItems(db, warehouse, doc, w, n, items[n..]).Ok?
    ensures PostItems(db, warehouse, doc, w, n, items[n..]).value.rows
         == w.rows + AdjustmentRows(warehouse, doc, items, n)
    decreases |items| - n
  {
    if n == |items| {
      assert items[n..] == [];
    } else {
      hide PostItem, PostedSoFar, CanPost, PostItems, RowOf;
      PostItemsNext(db, warehouse, doc, items, n, w);
      NextLinePosts(db, locked, warehouse, doc, items, n, w);
      PostedRowsAre(db, locked, warehouse, doc, items, n + 1, PostItem(db, warehouse, doc, w, n, items[n]).value);
      var own: seq<Txn> := if items[n].difference == 0 then [] else [RowOf(warehouse, doc, items[n], n)];
      Regroup(w.rows, own, AdjustmentRows(warehouse, doc, items, n + 1));
    }
  }

  predicate Differs(c: Count, n: nat, k: Key) {
    n < |c.items| && c.items[n].difference != 0 && k == Key(c.warehouse, c.items[n].material)
  }

  predicate Untouched(c: Count, k: Key) {
    forall n :: 0 <= n < |c.items| ==> !Differs(c, n, k)
  }

  // The balance of every key after the approval.
  predicate SettledOn(db: Db, after: Db, c: Count, k: Key) {
    && (Untouched(c, k) ==> BalanceOf(after.balances, k) == BalanceOf(db.balances, k))
    && (forall n :: 0 <= n < |c.items| && Differs(c, n, k) ==>
          var left := c.items[n].bookTotal + c.items[n].amount;
          BalanceOf(after.balances, k) == Balance(c.items[n].physical, left, NewAverage(left, c.items[n].physical)))
  }

  lemma {:induction false} UntouchedHasNoRow(warehouse: int, doc: nat, items: seq<CountItem>, n: nat, c: Count, k: Key)
    requires c.items == items && c.warehouse == warehouse && n <= |items| && Untouched(c, k)
    ensures k !in KeysOf(AdjustmentRows(warehouse, doc, items, n))
    decreases |items| - n
  {
    if n < |items| {
      UntouchedHasNoRow(warehouse, doc, items, n + 1, c, k);
      assert !Differs(c, n, k);
    }
  }

  // The posting behind an approval, with its rows in line order.
  lemma {:induction false} ApprovalPosting(db: Db, user: User, doc: nat, overrideFlag: bool, overrideReason: bool,
          after: Db) returns (locked: map<Key, Balance>, w: Posting)
    requires Valid(db) && ApprovedCount(db, user, doc, overrideFlag, overrideReason) == Ok(after)
    ensures doc < |db.counts|
    ensures locked == Upsert(db.balances, MovingKeys(db.counts[doc].warehouse, db.counts[doc].items))
    ensures w.rows == AdjustmentRows(db.counts[doc].warehouse, doc, db.counts[doc].items, 0)
    ensures w.balances == Post(locked, w.rows)
    ensures after == WithPosting(db, doc, w, user.id, user.id == db.counts[doc].countedBy)
    ensures CountFits(db.ledger, db.counts[doc])
  {
    assert CountFits(db.ledger, db.counts[doc]);
    hide CountFits, StockOk, PostItems, ApprovedCount, CanPost, Settled, RowsSoFar;
    ApprovedDocument(db, user, doc, overrideFlag, overrideReason);
    ApprovedCountIs(db, user, doc, overrideFlag, overrideReason);
    PostingMeans(db, doc);
    var c := db.counts[doc];
    locked, w := Upsert(db.balances, MovingKeys(c.warehouse, c.items)), PostingOf(db, doc).value;
    FrozenCanPost(db, c);
    StartsPosted(db, doc, locked);
    assert c.items[0..] == c.items;
    PostedRowsAre(db, locked, c.warehouse, doc, c.items, 0, Posting([], locked));
  }

  lemma {:induction false} ApprovedDocument(db: Db, user: User, doc: nat, overrideFlag: bool, overrideReason: bool)
    requires ApprovedCount(db, user, doc, overrideFlag, overrideReason).Ok?
    ensures doc < |db.counts| && db.counts[doc].status == CountPending
    ensures MayPost(db.counts[doc], user, overrideFlag, overrideReason) == Ok(user.id == db.counts[doc].countedBy)
  {
    hide PostItems, ItemsPostable;
  }

  lemma {:induction false} StartsPosted(db: Db, doc: nat, locked: map<Key, Balance>)
    requires StockOk(db.ledger, db.balances) && doc < |db.counts|
    requires locked == Upsert(db.balances, MovingKeys(db.counts[doc].warehouse, db.counts[doc].items))
    ensures PostedSoFar(db, locked, db.counts[doc].warehouse, doc, db.counts[doc].items, 0, Posting([], locked))
  {
    LockingKeepsStock(db.ledger, db.balances, MovingKeys(db.counts[doc].warehouse, db.counts[doc].items));
  }

  // In every reachable state approve_reconciliation marks the count with its approver, adds one ledger row for each
  // differing line in line order, makes their books what was counted, and changes nothing else.
  lemma {:induction false} ApprovedCountLeaves(db: Db, user: User, doc: nat, overrideFlag: bool, overrideReason: bool,
          after: Db)
    requires Valid(db) && ApprovedCount(db, user, doc, overrideFlag, overrideReason) == Ok(after)
    ensures doc < |db.counts| && |after.counts| == |db.counts|
    ensures var c := db.counts[doc];
      && after.counts[doc] == c.(status := CountPosted, version := c.version + 1, approvedBy := Some(user.id),
                                 selfApproved := user.id == c.countedBy)
      && after.ledger == db.ledger + AdjustmentRows(c.warehouse, doc, c.items, 0)
      && (forall k :: SettledOn(db, after, c, k))
      && after == db.(counts := db.counts[doc := after.counts[doc]], ledger := after.ledger, balances := after.balances,
                      audit := db.audit + [Audit(CountApproved, doc)])
  {
    hide Valid, CountFits, AdjustmentRows, SettledOn, ApprovedCount, Post;
    var locked, w := ApprovalPosting(db, user, doc, overrideFlag, overrideReason, after);
    forall k ensures SettledOn(db, after, db.counts[doc], k) {
      KeySettles(db, user, doc, overrideFlag, overrideReason, after, locked, w, k);
    }
  }

  lemma {:induction false} KeySettles(db: Db, user: User, doc: nat, overrideFlag: bool, overrideReason: bool, after: Db,
          locked: map<Key, Balance>, w: Posting, k: Key)
    requires Valid(db) && ApprovedCount(db, user, doc, overrideFlag, overrideReason) == Ok(after) && doc < |db.counts|
    requires locked == Upsert(db.balances, MovingKeys(db.counts[doc].warehouse, db.counts[doc].items))
    requires w.rows == AdjustmentRows(db.counts[doc].warehouse, doc, db.counts[doc].items, 0)
    requires after.balances == w.balances == Post(locked, w.rows)
    ensures SettledOn(db, after, db.counts[doc], k)
  {
    hide Valid, ApprovedCount, Post, AdjustmentRows;
    var c := db.counts[doc];
    if Untouched(c, k) {
      UntouchedHasNoRow(c.warehouse, doc, c.items, 0, c, k);
      UntouchedBalance(locked, w.rows, k);
    }
    forall n | 0 <= n < |c.items| && Differs(c, n, k)
      ensures var left := c.items[n].bookTotal + c.items[n].amount;
        BalanceOf(after.balances, k) == Balance(c.items[n].physical, left, NewAverage(left, c.items[n].physical))
    {
      CountLaws.ApprovalSettles(db, user, doc, overrideFlag, overrideReason, after, n);
      ApprovedCountKeepsValid(db, user, doc, overrideFlag, overrideReason, after);
      StockLaws.QuotientAverage(after, k);
    }
  }
}
