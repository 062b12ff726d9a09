/** What rounding does to write-offs on reachable tables: value that stays, stock that cannot leave. */
module Residues {
  import opened Money
  import opened Tables
  import opened Inventory
  import opened Counts
  import opened CountRules
  import opened CountLaws
  import opened Validity
  import opened Runs

  // ---------------------------------------------------------------------------------------------
  // A count of one line, with nothing moving in between
  // ---------------------------------------------------------------------------------------------

  // Who counts, who approves, and against which master data.
  datatype Crew = Crew(counter: User, approver: User, m: Master, overrideFlag: bool, overrideReason: bool)

  ghost function Recount(db: Db, crew: Crew, warehouse: int, line: CountRequest): Result<Db> {
    FreshCount(db, crew.counter, crew.approver, crew.m, warehouse, [line], crew.overrideFlag, crew.overrideReason)
  }

  predicate MayRecount(crew: Crew, warehouse: int, line: CountRequest) {
    && IsActive(crew.m.warehouses, warehouse) && IsActive(crew.m.materials, line.material)
    && FourEyes(crew.counter, crew.approver, crew.overrideFlag, crew.overrideReason) && line.physical >= 0
  }

  lemma {:induction false} RecountCreates(db: Db, crew: Crew, warehouse: int, line: CountRequest)
    requires MayRecount(crew, warehouse, line) && HasRate(db, warehouse, line)
    ensures CreatedCount(db, crew.counter, crew.m, warehouse, [line]).Ok?
  {
    NewItemsAre(db, warehouse, [line], []);
    assert Counts.RequestsOk(crew.m, [line][1..], {line.material}).Ok?;
    assert Counts.RequestsOk(crew.m, [line], {}).Ok?;
  }

  lemma {:induction false} OneMovingKey(warehouse: int, item: CountItem)
    requires item.difference != 0
    ensures MovingKeys(warehouse, [item]) == [Key(warehouse, item.material)]
  {
    assert MovingKeys(warehouse, [item][1..]) == [];
  }

  lemma {:induction false} OneItem(db: Db, warehouse: int, doc: nat, w: Posting, item: CountItem)
    ensures PostItems(db, warehouse, doc, w, 0, [item]) == PostItem(db, warehouse, doc, w, 0, item)
  {
    PostItemsNext(db, warehouse, doc, [item], 0, w);
    assert [item][0..] == [item] && [item][1..] == [];
  }

  // Posting the only line of a submitted count.
  lemma {:induction false} OneLinePosts(db: Db, doc: nat, item: CountItem)
    requires StockOk(db.ledger, db.balances) && doc < |db.counts| && CountFits(db.ledger, db.counts[doc])
    requires db.counts[doc].items == [item] && item.difference != 0
    requires Current(db.ledger, db.counts[doc].warehouse, item)
    ensures PostingOf(db, doc).Ok? <==> Bearable(item)
    ensures PostingOf(db, doc).Err? ==> PostingOf(db, doc).error == InventoryBalanceMismatch
    ensures PostingOf(db, doc).Ok? ==>
      BalanceOf(PostingOf(db, doc).value.balances, Key(db.counts[doc].warehouse, item.material))
      == CountRules.Adjusted(item)
  {
    var warehouse := db.counts[doc].warehouse;
    var locked := Upsert(db.balances, MovingKeys(warehouse, [item]));
    OneMovingKey(warehouse, item);
    assert db.counts[doc].items[0] == item;
    FrozenItemReady(db, locked, warehouse, item);
    OneItem(db, warehouse, doc, Posting([], locked), item);
    PostItemMeans(db, locked, warehouse, doc, Posting([], locked), 0, item);
  }

  // The line a recount freezes, and its count when it is submitted.
  lemma {:induction false} RecountStands(db: Db, crew: Crew, warehouse: int, line: CountRequest)
    returns (submitted: Db, item: CountItem)
    requires Valid(db) && MayRecount(crew, warehouse, line) && HasRate(db, warehouse, line)
    ensures Valid(submitted) && |submitted.counts| == |db.counts| + 1
    ensures submitted.ledger == db.ledger && submitted.balances == db.balances
    ensures var c := submitted.counts[|db.counts|];
      c.status == CountPending && c.warehouse == warehouse && c.items == [item]
      && MayPost(c, crew.approver, crew.overrideFlag, crew.overrideReason).Ok?
    ensures ItemOf(db, warehouse, line) == Ok(item)
    ensures Recount(db, crew, warehouse, line)
      == ApprovedCount(submitted, crew.approver, |db.counts|, crew.overrideFlag, crew.overrideReason)
  {
    hide Valid, NewItems;
    RecountCreates(db, crew, warehouse, line);
    var created := CreatedCount(db, crew.counter, crew.m, warehouse, [line]).value;
    submitted := FreshCountStands(db, crew.counter, crew.m, warehouse, [line], created);
    var none: seq<CountItem>, items := [], submitted.counts[|db.counts|].items;
    item := items[0];
    assert items[|none| + 0] == item;
  }

  // What a differing line makes of its balance, or that it is refused for its value.
  lemma {:induction false} RecountMoves(db: Db, crew: Crew, warehouse: int, line: CountRequest)
    requires Valid(db) && MayRecount(crew, warehouse, line) && HasRate(db, warehouse, line)
    requires line.physical != BalanceOf(db.balances, Key(warehouse, line.material)).quantity
    ensures var b := BalanceOf(db.balances, Key(warehouse, line.material));
      var d := AmountFor(line, b.quantity, b.average);
      var r := Recount(db, crew, warehouse, line);
      && d.Ok? && (r.Ok? <==> b.total + d.value.amount >= 0)
      && (r.Err? ==> r.error == InventoryBalanceMismatch)
      && (r.Ok? ==>
            BalanceOf(r.value.balances, Key(warehouse, line.material)) == Moved(b, d.value.difference, d.value.amount))
  {
    var submitted, item := RecountStands(db, crew, warehouse, line);
    CountableMeansPostable(db, warehouse, line, item);
    assert CountFits(submitted.ledger, submitted.counts[|db.counts|]);
    OneLinePosts(submitted, |db.counts|, item);
    ApprovedCountIs(submitted, crew.approver, |db.counts|, crew.overrideFlag, crew.overrideReason);
  }

  // ---------------------------------------------------------------------------------------------
  // Writing a whole stock off
  // ---------------------------------------------------------------------------------------------

  lemma {:induction false} BookFits(db: Db, key: Key)
    requires Valid(db)
    ensures var b := BalanceOf(db.balances, key);
      b.quantity >= 0 && b.total >= 0 && b.average == NewAverage(b.total, b.quantity)
  {
    NeverMoved(db.ledger, db.balances, key);
  }

  // In every reachable state, counting 0 where there is stock is refused exactly when the rounded average overshoots
  // the value by half a cent or more; otherwise it posts, and leaves what rounding leaves on an empty balance.
  lemma {:induction false} WriteOffDecided(db: Db, crew: Crew, warehouse: int, line: CountRequest)
    requires Valid(db) && MayRecount(crew, warehouse, line) && line.physical == 0
    requires BalanceOf(db.balances, Key(warehouse, line.material)).quantity > 0
    ensures var b := BalanceOf(db.balances, Key(warehouse, line.material));
      var r := Recount(db, crew, warehouse, line);
      && (r.Ok? <==> 2 * AverageOvershoot(b.total, b.quantity) < UNITS_PER_CENT)
      && (r.Err? ==> r.error == InventoryBalanceMismatch)
      && (r.Ok? ==> BalanceOf(r.value.balances, Key(warehouse, line.material))
                    == Balance(0, WriteOffResidue(b.total, b.quantity), 0))
  {
    hide Valid, Recount, MayRecount, HalfUp;
    var b := BalanceOf(db.balances, Key(warehouse, line.material));
    BookFits(db, Key(warehouse, line.material));
    RecountMoves(db, crew, warehouse, line);
    WriteOffOutcome(b.total, b.quantity);
  }

  // ---------------------------------------------------------------------------------------------
  // Tables on which the value stays, or the stock cannot leave
  // ---------------------------------------------------------------------------------------------

  lemma {:induction false} RunNext(past: seq<Request>, r: Request, after: Db)
    requires Stored(Run(past)) && Outcome(Run(past), r) == Ok(after)
    ensures Run(past + [r]) == after
  {
    hide Valid, Stored, Outcome;
    assert (past + [r])[..|past|] == past;
  }

  lemma {:induction false} CreateRuns(past: seq<Request>, crew: Crew, warehouse: int, lines: seq<CountRequest>,
                                      after: Db)
    requires CreatedCount(Run(past), crew.counter, crew.m, warehouse, lines) == Ok(after)
    ensures Run(past + [Request(crew.counter, crew.m, CreateCount(warehouse, lines))]) == after
  {
    hide Valid, Stored, CreatedCount;
    ValidIsStored(Run(past));
    RunNext(past, Request(crew.counter, crew.m, CreateCount(warehouse, lines)), after);
  }

  lemma {:induction false} SubmitRuns(past: seq<Request>, crew: Crew, doc: nat, after: Db)
    requires SubmittedCount(Run(past), doc, 1) == Ok(after)
    ensures Run(past + [Request(crew.counter, crew.m, SubmitCount(doc, 1))]) == after
  {
    hide Valid, Stored, SubmittedCount;
    ValidIsStored(Run(past));
    RunNext(past, Request(crew.counter, crew.m, SubmitCount(doc, 1)), after);
  }

  lemma {:induction false} ApproveRuns(past: seq<Request>, crew: Crew, doc: nat, after: Db)
    requires ApprovedCount(Run(past), crew.approver, doc, crew.overrideFlag, crew.overrideReason) == Ok(after)
    ensures Run(past + [Request(crew.approver, crew.m, ApproveCount(doc, crew.overrideFlag, crew.overrideReason))])
         == after
  {
    hide Valid, Stored, ApprovedCount;
    ValidIsStored(Run(past));
    RunNext(past, Request(crew.approver, crew.m, ApproveCount(doc, crew.overrideFlag, crew.overrideReason)), after);
  }

  // A successful recount is three calls of a run.
  lemma {:induction false} RecountRuns(past: seq<Request>, crew: Crew, warehouse: int, line: CountRequest, db: Db,
                                       after: Db)
    returns (calls: seq<Request>)
    requires Run(past) == db && Recount(db, crew, warehouse, line) == Ok(after)
    ensures Run(calls) == after
  {
    var created := CreatedCount(db, crew.counter, crew.m, warehouse, [line]).value;
    CreateRuns(past, crew, warehouse, [line], created);
    calls := past + [Request(crew.counter, crew.m, CreateCount(warehouse, [line]))];
    var submitted := SubmittedCount(created, |db.counts|, 1).value;
    SubmitRuns(calls, crew, |db.counts|, submitted);
    calls := calls + [Request(crew.counter, crew.m, SubmitCount(|db.counts|, 1))];
    ApproveRuns(calls, crew, |db.counts|, after);
    calls := calls + [Request(crew.approver, crew.m,
                              ApproveCount(|db.counts|, crew.overrideFlag, crew.overrideReason))];
  }

  const SOME_CREW := Crew(User(1, false, true, None, false), User(2, false, true, None, false),
                          Master(map[7 := true], map[9 := true], map[], map[], {}), false, false)
  const SOME_KEY := Key(9, 7)

  // Some run ends with this quantity and this value on a key.
  ghost predicate Reaches(quantity: int, total: int) {
    exists calls ::
      && BalanceOf(Run(calls).balances, SOME_KEY).quantity == quantity
      && BalanceOf(Run(calls).balances, SOME_KEY).total == total
  }

  // Counting more than there is, at 0.0001 apiece.
  lemma {:induction false} FindMore(quantity: int, total: int, physical: int)
    requires Reaches(quantity, total) && 0 <= quantity < physical
    ensures Reaches(physical, total + LineAmount(physical - quantity, 1))
  {
    hide Valid, Run, Recount;
    var past :| BalanceOf(Run(past).balances, SOME_KEY).quantity == quantity
       && BalanceOf(Run(past).balances, SOME_KEY).total == total;
    var db, line := Run(past), CountRequest(7, physical, Some(1));
    BookFits(db, SOME_KEY);
    RecountMoves(db, SOME_CREW, 9, line);
    var calls := RecountRuns(past, SOME_CREW, 9, line, db, Recount(db, SOME_CREW, 9, line).value);
    assert BalanceOf(Run(calls).balances, SOME_KEY).quantity == physical;
  }

  // 100 pieces at 0.0001 are worth one cent, 40 and 20 more are worth nothing.
  lemma {:induction false} SmallChange()
    ensures LineAmount(1_000_000, 1) == 1 && LineAmount(400_000, 1) == 0 && LineAmount(200_000, 1) == 0
  {
    HalfUpUnique(1_000_000, UNITS_PER_CENT, 1);
    HalfUpUnique(400_000, UNITS_PER_CENT, 0);
    HalfUpUnique(200_000, UNITS_PER_CENT, 0);
  }

  lemma {:induction false} HundredForOneCent()
    ensures Reaches(1_000_000, 1)
  {
    hide Valid;
    SmallChange();
    assert Run([]) == EMPTY;
    assert BalanceOf(Run([]).balances, SOME_KEY) == NO_STOCK;
    FindMore(0, 0, 1_000_000);
  }

  lemma {:induction false} TwoHundredForOneCent()
    ensures Reaches(2_000_000, 1)
  {
    hide Valid, Reaches, LineAmount;
    SmallChange();
    HundredForOneCent();
    FindMore(1_000_000, 1, 1_400_000);
    FindMore(1_400_000, 1, 1_800_000);
    FindMore(1_800_000, 1, 2_000_000);
  }

  lemma {:induction false} ThreeHundredForOneCent()
    ensures Reaches(3_000_000, 1)
  {
    hide Valid, Reaches, LineAmount;
    SmallChange();
    TwoHundredForOneCent();
    FindMore(2_000_000, 1, 2_400_000);
    FindMore(2_400_000, 1, 2_800_000);
    FindMore(2_800_000, 1, 3_000_000);
  }

  // Some run ends with stock that nobody can write off as a whole: its rounded average is more than it is worth.
  lemma {:induction false} RefusedWriteOff() returns (calls: seq<Request>)
    ensures BalanceOf(Run(calls).balances, SOME_KEY) == Balance(2_000_000, 1, 1)
    ensures forall crew, rate :: MayRecount(crew, 9, CountRequest(7, 0, rate)) ==>
      Recount(Run(calls), crew, 9, CountRequest(7, 0, rate)) == Err(InventoryBalanceMismatch)
  {
    hide Valid, Run, Recount;
    TwoHundredForOneCent();
    calls :| BalanceOf(Run(calls).balances, SOME_KEY).quantity == 2_000_000
             && BalanceOf(Run(calls).balances, SOME_KEY).total == 1;
    BookFits(Run(calls), SOME_KEY);
    HalfUpUnique(1_000_000, 2_000_000, 1);
    forall crew, rate | MayRecount(crew, 9, CountRequest(7, 0, rate))
      ensures Recount(Run(calls), crew, 9, CountRequest(7, 0, rate)) == Err(InventoryBalanceMismatch)
    {
      WriteOffDecided(Run(calls), crew, 9, CountRequest(7, 0, rate));
    }
  }

  // Some run ends with stock whose write-off leaves an empty balance that is still worth one cent.
  lemma {:induction false} LeftoverWriteOff() returns (calls: seq<Request>)
    ensures BalanceOf(Run(calls).balances, SOME_KEY) == Balance(3_000_000, 1, 0)
    ensures forall crew, rate :: MayRecount(crew, 9, CountRequest(7, 0, rate)) ==>
      var r := Recount(Run(calls), crew, 9, CountRequest(7, 0, rate));
      r.Ok? && BalanceOf(r.value.balances, SOME_KEY) == Balance(0, 1, 0)
  {
    hide Valid, Run, Recount, HalfUp, WriteOffResidue, AverageOvershoot, LineAmount;
    ThreeHundredForOneCent();
    calls :| BalanceOf(Run(calls).balances, SOME_KEY).quantity == 3_000_000
             && BalanceOf(Run(calls).balances, SOME_KEY).total == 1;
    BookFits(Run(calls), SOME_KEY);
    WriteOffFailures();
    WriteOffOutcome(1, 3_000_000);
    HalfUpUnique(1_000_000, 3_000_000, 0);
    forall crew, rate | MayRecount(crew, 9, CountRequest(7, 0, rate))
      ensures var r := Recount(Run(calls), crew, 9, CountRequest(7, 0, rate));
        r.Ok? && BalanceOf(r.value.balances, SOME_KEY) == Balance(0, 1, 0)
    {
      WriteOffDecided(Run(calls), crew, 9, CountRequest(7, 0, rate));
    }
  }

  // Those counts are accepted: someone may take them.
  lemma {:induction false} SomeoneMayRecount()
    ensures MayRecount(SOME_CREW, 9, CountRequest(7, 0, None))
  {
  }
}
