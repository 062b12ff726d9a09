/** Any interleaving of conversions and cancellations is the sequence of the committed calls, in commit order. */
module ConversionSchedules {
  import opened Sums
  import opened Tables
  import opened ConversionProtocol
  import opened ConversionRuns
  import opened Validity
  import opened Runs
  import Acceptance
  import Orders
  import OrderRules
  import RequisitionRules
  import ChainLaws

  // ---------------------------------------------------------------------------------------------
  // The calls, one after the other
  // ---------------------------------------------------------------------------------------------

  predicate Converts(r: Request) {
    r.call.CreatePo? || r.call.CancelPo?
  }

  function KindOf(r: Request): Kind
    requires Converts(r)
  {
    match r.call
    case CreatePo(_, items) => Create(AskedTakes(ChainLaws.AllSources(items)))
    case CancelPo(po, _) => Cancel(po)
  }

  ghost function After(db: Db, requests: seq<Request>): (after: Db)
    requires Valid(db)
    ensures Valid(after)
  {
    if requests == [] then db else Step(After(db, requests[..|requests| - 1]), requests[|requests| - 1])
  }

  lemma {:induction false} AfterSnoc(db: Db, requests: seq<Request>, r: Request)
    requires Valid(db)
    ensures After(db, requests + [r]) == Step(After(db, requests), r)
  {
    hide Valid, Step;
    assert (requests + [r])[..|requests|] == requests;
  }

  // ---------------------------------------------------------------------------------------------
  // What the calls check before their first compare-and-set
  // ---------------------------------------------------------------------------------------------

  // An order that the prechecks accept, up to requisitions that may be full at the moment.
  predicate Askable(db: Db, m: Master, supplier: int, items: seq<Orders.ItemRequest>) {
    && items != [] && IsActive(m.suppliers, supplier)
    && Orders.SourcesExist(db.prLines, items)
    && (forall p :: p in Orders.TouchedPrs(db.prLines, items) ==>
          p < |db.prs| && (db.prs[p].status == PrApproved || db.prs[p].status == PrConverted))
    && Orders.ItemsOk(m, items).Ok? && ChainLaws.NothingRepeats(items)
  }

  predicate Cancellable(po: Po, user: User, version: nat) {
    (po.status == PoDraft || po.status == PoConfirmed) && po.version == version && Orders.MayHandle(po, user)
  }

  // An order to be cancelled is there from the start, or one of the new ones, which are drafts of their creators.
  predicate Startable(db: Db, requests: seq<Request>, r: Request) {
    match r.call
    case CreatePo(supplier, items) => Askable(db, r.master, supplier, items)
    case CancelPo(po, version) =>
      if po < |db.pos| then Cancellable(db.pos[po], r.user, version)
      else
        && version == 1
        && forall q :: q in requests && q.call.CreatePo? ==> r.user.isAdmin || q.user.id == r.user.id
    case _ => false
  }

  // ---------------------------------------------------------------------------------------------
  // What the calls leave of what was checked
  // ---------------------------------------------------------------------------------------------

  predicate IsNew(requests: seq<Request>, po: Po) {
    && po.status == PoDraft && po.version == 1
    && exists q :: q in requests && q.call.CreatePo? && q.user.id == po.buyer
  }

  ghost predicate PosFollow(pos: seq<Po>, requests: seq<Request>, pos2: seq<Po>) {
    && |pos| <= |pos2|
    && (forall o :: 0 <= o < |pos| ==> pos2[o] == pos[o] || pos2[o].status == PoCancelled)
    && (forall o :: |pos| <= o < |pos2| ==> IsNew(requests, pos2[o]) || pos2[o].status == PoCancelled)
  }

  ghost predicate LinesFollow(lines: map<nat, PrLine>, lines2: map<nat, PrLine>) {
    lines2.Keys == lines.Keys && forall l :: l in lines ==> lines2[l].pr == lines[l].pr
  }

  ghost predicate Follows(db: Db, requests: seq<Request>, now: Db) {
    && LinesFollow(db.prLines, now.prLines) && OrderRules.OnlyFlips(db.prs, now.prs)
    && PosFollow(db.pos, requests, now.pos)
  }

  lemma {:induction false} LinesCompose(a: map<nat, PrLine>, b: map<nat, PrLine>, c: map<nat, PrLine>)
    requires LinesFollow(a, b) && c.Keys == b.Keys
    requires forall l :: l in b ==> c[l] == b[l].(converted := c[l].converted)
    ensures LinesFollow(a, c)
  {
    forall l | l in a ensures c[l].pr == a[l].pr {
      assert c[l] == b[l].(converted := c[l].converted);
    }
  }

  lemma {:induction false} CreateFollows(db: Db, requests: seq<Request>, now: Db, r: Request, after: Db)
    requires Valid(now) && Follows(db, requests, now) && r in requests && r.call.CreatePo?
    requires Orders.CreatedPo(now, r.user, r.master, r.call.supplier, r.call.items) == Ok(after)
    ensures Follows(db, requests, after)
  {
    OrderRules.CreatedPoKeepsRules(now, r.user, r.master, r.call.supplier, r.call.items, after);
    ChainLaws.FlipsCompose(db.prs, now.prs, after.prs);
    LinesCompose(db.prLines, now.prLines, after.prLines);
    NewPoFollows(db.pos, requests, now.pos, after.pos, r);
  }

  lemma {:induction false} NewPoFollows(pos: seq<Po>, requests: seq<Request>, pos2: seq<Po>, pos3: seq<Po>, r: Request)
    requires PosFollow(pos, requests, pos2) && r in requests && r.call.CreatePo?
    requires |pos3| == |pos2| + 1 && pos3[..|pos2|] == pos2
    requires pos3[|pos2|].buyer == r.user.id && pos3[|pos2|].status == PoDraft && pos3[|pos2|].version == 1
    ensures PosFollow(pos, requests, pos3)
  {
    forall o | 0 <= o < |pos2| ensures pos3[o] == pos2[o] { assert pos3[..|pos2|][o] == pos3[o]; }
  }

  lemma {:induction false} CancelFollows(db: Db, requests: seq<Request>, now: Db, user: User, po: nat, version: nat,
          after: Db)
    requires Valid(now) && Stored(now) && Follows(db, requests, now)
    requires Orders.CancelledPo(now, user, po, version) == Ok(after)
    ensures Follows(db, requests, after)
  {
    hide Valid, Orders.CancelledPo;
    ChainLaws.CancelEffect(now, user, po, version, after);
    ChainLaws.FlipsCompose(db.prs, now.prs, after.prs);
    LinesCompose(db.prLines, now.prLines, after.prLines);
  }

  // ---------------------------------------------------------------------------------------------
  // What the protocol grants, the service grants
  // ---------------------------------------------------------------------------------------------

  lemma {:induction false} TakenFromLine(items: seq<Orders.ItemRequest>, item: Orders.ItemRequest,
          x: Orders.SourceRequest)
    requires item in items && x in item.sources
    ensures x in ChainLaws.AllSources(items)
  {
    if items[0] != item { TakenFromLine(items[1..], item, x); }
  }

  // A requisition line that can bear what is taken from it is not full, so its requisition is not CONVERTED.
  lemma {:induction false} StillApproved(now: Db, items: seq<Orders.ItemRequest>, item: Orders.ItemRequest,
          x: Orders.SourceRequest)
    requires RequisitionRules.StatusesFit(now.prs, now.prLines) && Orders.SourcesExist(now.prLines, items)
    requires forall l :: l in now.prLines ==> OrderRules.Bears(now.prLines, ChainLaws.AllSources(items), l)
    requires item in items && x in item.sources && now.prLines[x.prLine].pr < |now.prs|
    ensures now.prs[now.prLines[x.prLine].pr].status != PrConverted
  {
    var l, sources := x.prLine, ChainLaws.AllSources(items);
    TakenFromLine(items, item, x);
    var i :| 0 <= i < |sources| && sources[i] == x;
    SumCovers(sources, OrderRules.Taking(l), i);
    assert OrderRules.Bears(now.prLines, sources, l);
    assert RequisitionRules.StatusFits(now.prs[now.prLines[l].pr].status, now.prLines, now.prLines[l].pr);
  }

  lemma {:induction false} CreateSucceeds(db: Db, requests: seq<Request>, now: Db, r: Request)
    requires Valid(now) && Follows(db, requests, now) && r.call.CreatePo? && Startable(db, requests, r)
    requires forall l :: l in now.prLines ==>
      OrderRules.Bears(now.prLines, ChainLaws.AllSources(r.call.items), l)
    ensures Orders.CreatedPo(now, r.user, r.master, r.call.supplier, r.call.items).Ok?
  {
    hide OrderRules.Bears, OrderRules.OrdersOk, RequisitionRules.StatusesFit, ChainLaws.NothingRepeats;
    var items := r.call.items;
    forall p | p in Orders.TouchedPrs(now.prLines, items)
      ensures p < |now.prs| && now.prs[p].status == PrApproved
    {
      var item, x :| item in items && x in item.sources && now.prLines[x.prLine].pr == p;
      assert p in Orders.TouchedPrs(db.prLines, items);
      assert RequisitionRules.Interchangeable(db.prs[p].status, now.prs[p].status);
      StillApproved(now, items, item, x);
    }
    Acceptance.OrderPrecheckIs(now, r.master, r.call.supplier, items);
    ChainLaws.CreatePoSucceedsIff(now, r.user, r.master, r.call.supplier, items);
  }

  lemma {:induction false} CancelSucceeds(db: Db, requests: seq<Request>, now: Db, r: Request)
    requires Valid(now) && Stored(now) && Follows(db, requests, now) && r.call.CancelPo?
    requires Startable(db, requests, r) && r.call.po < |now.pos| && now.pos[r.call.po].status != PoCancelled
    ensures Orders.CancelledPo(now, r.user, r.call.po, r.call.version).Ok?
  {
    hide Valid;
    ChainLaws.CancelPoSucceedsIff(now, r.user, r.call.po, r.call.version);
  }

  // ---------------------------------------------------------------------------------------------
  // Commit order
  // ---------------------------------------------------------------------------------------------

  ghost predicate Commits(s: State, p: nat, s2: State) {
    p < |s.processes| && Commit(s, p, s2)
  }

  // The transaction that this step commits, if any.
  ghost function Newly(s: State, s2: State): (r: seq<nat>)
    ensures |r| <= 1
    ensures forall p :: p in r ==> Commits(s, p, s2)
    ensures r == [] ==> forall p: nat :: !Commits(s, p, s2)
  {
    if exists p: nat :: Commits(s, p, s2) then var p: nat :| Commits(s, p, s2); [p] else []
  }

  ghost function CommitOrder(run: seq<State>, i: nat): seq<nat>
    requires i < |run|
  {
    if i == 0 then [] else CommitOrder(run, i - 1) + Newly(run[i - 1], run[i])
  }

  predicate HasCommitted(s: State, p: nat) {
    p < |s.processes| && s.processes[p].phase == Committed
  }

  // The order names every committed transaction once.
  ghost predicate IsOrderOf(s: State, done: seq<nat>) {
    && (forall j :: 0 <= j < |done| ==> HasCommitted(s, done[j]))
    && (forall p: nat :: HasCommitted(s, p) ==> p in done)
    && (forall a, b :: 0 <= a < b < |done| ==> done[a] != done[b])
  }

  function CallsAt(requests: seq<Request>, done: seq<nat>): (r: seq<Request>)
    requires forall j :: 0 <= j < |done| ==> done[j] < |requests|
    ensures |r| == |done| && forall j :: 0 <= j < |done| ==> r[j] == requests[done[j]]
  {
    seq(|done|, j requires 0 <= j < |done| => requests[done[j]])
  }

  ghost predicate Carries(s: State, requests: seq<Request>) {
    && |s.processes| == |requests|
    && forall p :: 0 <= p < |requests| ==> Converts(requests[p]) && s.processes[p].kind == KindOf(requests[p])
  }

  // The protocol's state stands for these tables: the same orders, on the same requisition lines.
  ghost predicate Mirrors(s: State, now: Db) {
    s.orders == OrdersOf(now) && s.requested == RequestedOf(now.prLines)
  }

  lemma {:induction false} StepKeepsCalls(s: State, s2: State, requests: seq<Request>)
    requires Carries(s, requests) && Next(s, s2)
    ensures Carries(s2, requests)
  {
  }

  // A step that commits nothing changes neither the orders nor who has committed.
  lemma {:induction false} OtherStep(s: State, s2: State)
    requires Next(s, s2) && Newly(s, s2) == []
    ensures s2.orders == s.orders && s2.requested == s.requested
    ensures forall p: nat :: HasCommitted(s2, p) <==> HasCommitted(s, p)
  {
    hide FreeFor, GuardHolds, Steps;
    var p :| 0 <= p < |s.processes| && (Begin(s, p, s2) || Cas(s, p, s2) || Commit(s, p, s2) || Rollback(s, p, s2));
    assert !Commits(s, p, s2);
    forall q: nat ensures HasCommitted(s2, q) <==> HasCommitted(s, q) {
      if q < |s.processes| && q != p { assert s2.processes[q] == s.processes[q]; }
    }
  }

  lemma {:induction false} CommitStep(s: State, p: nat, s2: State, done: seq<nat>)
    requires Commits(s, p, s2) && IsOrderOf(s, done)
    ensures IsOrderOf(s2, done + [p])
  {
    assert !HasCommitted(s, p);
    forall q: nat ensures HasCommitted(s2, q) <==> q == p || HasCommitted(s, q) {
      if q < |s.processes| && q != p { assert s2.processes[q] == s.processes[q]; }
    }
  }

  // ---------------------------------------------------------------------------------------------
  // A committing transaction is its service call
  // ---------------------------------------------------------------------------------------------

  lemma {:induction false} MirroredLine(s: State, now: Db, l: nat)
    requires Valid(now) && Stored(now) && Mirrors(s, now) && l in now.prLines
    ensures now.prLines[l].converted == LiveSum(s.orders, l) && l in s.requested
    ensures now.prLines[l].requested == s.requested[l]
  {
    ConvertedIsDrawn(now, l);
    assert s.requested[l] == RequestedOf(now.prLines)[l];
  }

  lemma {:induction false} CommittedBears(s: State, p: nat, s2: State, now: Db, r: Request, l: nat)
    requires Valid(now) && Stored(now) && Mirrors(s, now) && Inv(s2) && Commits(s, p, s2) && r.call.CreatePo?
    requires s.processes[p].kind == KindOf(r) && l in now.prLines && s2.converted.Keys == s.requested.Keys
    ensures OrderRules.Bears(now.prLines, ChainLaws.AllSources(r.call.items), l)
  {
    hide Valid, Stored, ConversionProtocol.LiveSum;
    var sources := ChainLaws.AllSources(r.call.items);
    MirroredLine(s, now, l);
    OneMoreOrder(s.orders, AskedTakes(sources), l);
    AskedSum(sources, l);
    assert LiveSum(s2.orders, l) <= s2.requested[l];
  }

  lemma {:induction false} CreateSteps(now: Db, r: Request, after: Db)
    requires Valid(now) && Stored(now) && r.call.CreatePo?
    requires Orders.CreatedPo(now, r.user, r.master, r.call.supplier, r.call.items) == Ok(after)
    ensures Outcome(now, r) == Ok(after) && Step(now, r) == after
  {
    hide Valid, Stored, Orders.CreatedPo;
  }

  lemma {:induction false} CancelSteps(now: Db, r: Request, after: Db)
    requires Valid(now) && Stored(now) && r.call.CancelPo?
    requires Orders.CancelledPo(now, r.user, r.call.po, r.call.version) == Ok(after)
    ensures Outcome(now, r) == Ok(after) && Step(now, r) == after
  {
    hide Valid, Orders.CancelledPo;
  }

  lemma {:induction false} CreateCommits(s: State, p: nat, s2: State, db: Db, requests: seq<Request>, now: Db,
          r: Request)
    requires Valid(now) && Stored(now) && Mirrors(s, now) && Inv(s2) && Commits(s, p, s2)
    requires Follows(db, requests, now) && r in requests && Startable(db, requests, r)
    requires r.call.CreatePo? && s.processes[p].kind == KindOf(r)
    ensures Outcome(now, r).Ok? && Mirrors(s2, Step(now, r)) && Follows(db, requests, Step(now, r))
  {
    hide Valid, Stored, Inv, Follows, Startable, Orders.CreatedPo, OrderRules.Bears, OrdersOf, RequestedOf, Outcome,
         Step;
    forall l | l in now.prLines ensures OrderRules.Bears(now.prLines, ChainLaws.AllSources(r.call.items), l) {
      InvKeys(s2);
      CommittedBears(s, p, s2, now, r, l);
    }
    CreateSucceeds(db, requests, now, r);
    var after := Orders.CreatedPo(now, r.user, r.master, r.call.supplier, r.call.items).value;
    CreateFollows(db, requests, now, r, after);
    CreateSteps(now, r, after);
    ValidIsStored(after);
    CreatedOrders(now, r.user, r.master, r.call.supplier, r.call.items, after);
  }

  lemma {:induction false} InvKeys(s: State)
    requires Inv(s)
    ensures s.converted.Keys == s.requested.Keys
  {
  }

  lemma {:induction false} ClaimedIsLive(s: State, p: nat)
    requires Inv(s) && p < |s.processes| && s.processes[p].phase.Running? && s.processes[p].kind.Cancel?
    ensures s.processes[p].kind.order < |s.orders| && s.orders[s.processes[p].kind.order].live
  {
    assert RunningFits(s, s.processes[p]);
  }

  lemma {:induction false} CancelCommits(s: State, p: nat, s2: State, db: Db, requests: seq<Request>, now: Db,
          r: Request)
    requires Valid(now) && Stored(now) && Mirrors(s, now) && Inv(s) && Commits(s, p, s2)
    requires Follows(db, requests, now) && r in requests && Startable(db, requests, r)
    requires r.call.CancelPo? && s.processes[p].kind == KindOf(r)
    ensures Outcome(now, r).Ok? && Mirrors(s2, Step(now, r)) && Follows(db, requests, Step(now, r))
  {
    hide Valid, Inv, Follows, Startable, Orders.CancelledPo, RequestedOf, Outcome, Step;
    ClaimedIsLive(s, p);
    CancelSucceeds(db, requests, now, r);
    var after := Orders.CancelledPo(now, r.user, r.call.po, r.call.version).value;
    CancelFollows(db, requests, now, r.user, r.call.po, r.call.version, after);
    CancelSteps(now, r, after);
    CancelledOrders(now, r.user, r.call.po, r.call.version, after);
  }

  // ---------------------------------------------------------------------------------------------
  // For every schedule
  // ---------------------------------------------------------------------------------------------

  ghost predicate SucceedsAt(db: Db, requests: seq<Request>, j: nat)
    requires Valid(db) && j < |requests|
  {
    ValidIsStored(After(db, requests[..j]));
    Outcome(After(db, requests[..j]), requests[j]).Ok?
  }

  // The committed calls, one after the other, leave what the protocol's state stands for, and each succeeds.
  ghost predicate Serially(db: Db, requests: seq<Request>, s: State, done: seq<nat>)
    requires Valid(db)
  {
    && Carries(s, requests) && IsOrderOf(s, done)
    && var calls := CallsAt(requests, done);
       && Mirrors(s, After(db, calls)) && Follows(db, requests, After(db, calls))
       && forall j :: 0 <= j < |calls| ==> SucceedsAt(db, calls, j)
  }

  lemma {:induction false} CallsAtSnoc(requests: seq<Request>, done: seq<nat>, p: nat)
    requires (forall j :: 0 <= j < |done| ==> done[j] < |requests|) && p < |requests|
    ensures CallsAt(requests, done + [p]) == CallsAt(requests, done) + [requests[p]]
  {
  }

  lemma {:induction false} SucceedsSnoc(db: Db, calls: seq<Request>, r: Request)
    requires Valid(db) && Stored(After(db, calls)) && Outcome(After(db, calls), r).Ok?
    requires forall j :: 0 <= j < |calls| ==> SucceedsAt(db, calls, j)
    ensures forall j :: 0 <= j < |calls + [r]| ==> SucceedsAt(db, calls + [r], j)
  {
    hide Valid, Stored, Outcome, After;
    var all := calls + [r];
    forall j | 0 <= j < |all| ensures SucceedsAt(db, all, j) {
      if j < |calls| {
        assert all[..j] == calls[..j];
        assert SucceedsAt(db, calls, j);
      } else {
        assert all[..j] == calls;
      }
    }
  }

  lemma {:induction false} CommitGoesOn(db: Db, requests: seq<Request>, s: State, p: nat, s2: State, done: seq<nat>)
    requires Valid(db) && Serially(db, requests, s, done) && Inv(s) && Inv(s2) && Next(s, s2) && Commits(s, p, s2)
    requires forall q :: 0 <= q < |requests| ==> Startable(db, requests, requests[q])
    ensures Serially(db, requests, s2, done + [p])
  {
    hide Valid, Stored, Inv, Follows, Startable, Outcome, Mirrors, SucceedsAt, After, Step, Commit, Next;
    var calls, r := CallsAt(requests, done), requests[p];
    var now := After(db, calls);
    ValidIsStored(now);
    if r.call.CreatePo? {
      CreateCommits(s, p, s2, db, requests, now, r);
    } else {
      CancelCommits(s, p, s2, db, requests, now, r);
    }
    StepKeepsCalls(s, s2, requests);
    CommitStep(s, p, s2, done);
    CallsAtSnoc(requests, done, p);
    AfterSnoc(db, calls, r);
    SucceedsSnoc(db, calls, r);
  }

  lemma {:induction false} GoesOn(db: Db, requests: seq<Request>, s: State, s2: State, done: seq<nat>)
    requires Valid(db) && Serially(db, requests, s, done) && Inv(s) && Inv(s2) && Next(s, s2)
    requires forall q :: 0 <= q < |requests| ==> Startable(db, requests, requests[q])
    ensures Serially(db, requests, s2, done + Newly(s, s2))
  {
    hide Valid, Inv, Follows, Startable, SucceedsAt, After, Next, OrdersOf, RequestedOf;
    if Newly(s, s2) == [] {
      OtherStep(s, s2);
      StepKeepsCalls(s, s2, requests);
      assert done + Newly(s, s2) == done;
    } else {
      CommitGoesOn(db, requests, s, Newly(s, s2)[0], s2, done);
    }
  }

  lemma {:induction false} StartsSerially(db: Db, requests: seq<Request>, s: State)
    requires Valid(db) && Carries(s, requests) && Initial(s) && s == StateOf(db, s.processes)
    ensures Serially(db, requests, s, [])
  {
    hide Valid;
    assert CallsAt(requests, []) == [];
  }

  lemma {:induction false} ScheduleGoesOn(run: seq<State>, i: nat, db: Db, requests: seq<Request>)
    requires Valid(db) && Schedule(run) && i < |run|
    requires run[0] == StateOf(db, run[0].processes) && Carries(run[0], requests)
    requires forall q :: 0 <= q < |requests| ==> Startable(db, requests, requests[q])
    ensures Serially(db, requests, run[i], CommitOrder(run, i))
  {
    hide Valid, Serially, Startable, Carries, Inv, Next, Initial;
    if i == 0 {
      StartsSerially(db, requests, run[0]);
    } else {
      ScheduleGoesOn(run, i - 1, db, requests);
      ConversionsStayWithin(run, i - 1);
      ConversionsStayWithin(run, i);
      assert Next(run[i - 1], run[i - 1 + 1]);
      GoesOn(db, requests, run[i - 1], run[i], CommitOrder(run, i - 1));
    }
  }

  // Every requisition line that no transaction is working on has converted what it has in these tables.
  predicate LinesSettle(s: State, now: Db) {
    forall l :: l in s.converted && Untouched(s, l) ==>
      l in now.prLines && s.converted[l] == now.prLines[l].converted
  }

  // At any moment of any schedule of create_po and cancel_po calls that starts on the tables of a reachable state: the
  // committed calls, in commit order, each succeed as service calls, and every requisition line that no transaction is
  // working on has converted what those calls, one after the other, leave it.
  lemma {:induction false} ScheduleIsServices(run: seq<State>, i: nat, db: Db, requests: seq<Request>)
    requires Valid(db) && Schedule(run) && i < |run|
    requires run[0] == StateOf(db, run[0].processes) && Carries(run[0], requests)
    requires forall q :: 0 <= q < |requests| ==> Startable(db, requests, requests[q])
    ensures Serially(db, requests, run[i], CommitOrder(run, i))
    ensures LinesSettle(run[i], After(db, CallsAt(requests, CommitOrder(run, i))))
  {
    hide Valid, Stored, SucceedsAt, After, Next, Follows, Startable, OrdersOf;
    ScheduleGoesOn(run, i, db, requests);
    ConversionsStayWithin(run, i);
    InvKeys(run[i]);
    var s, now := run[i], After(db, CallsAt(requests, CommitOrder(run, i)));
    ValidIsStored(now);
    forall l | l in s.converted && Untouched(s, l)
      ensures l in now.prLines && s.converted[l] == now.prLines[l].converted
    {
      assert l in RequestedOf(now.prLines);
      MirroredLine(s, now, l);
    }
  }
}
