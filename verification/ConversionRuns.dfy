/** The conversion protocol and the order services: what a transaction does alone is what its service does. */
module ConversionRuns {
  import opened Sums
  import opened Tables
  import opened ConversionProtocol
  import opened Validity
  import Acceptance
  import RequisitionRules
  import Orders
  import OrderRules
  import ChainLaws

  // ---------------------------------------------------------------------------------------------
  // One transaction alone
  // ---------------------------------------------------------------------------------------------

  ghost predicate StepOf(s: State, p: nat, s2: State)
    requires p < |s.processes|
  {
    Begin(s, p, s2) || Cas(s, p, s2) || Commit(s, p, s2) || Rollback(s, p, s2)
  }

  // A run from s in which only process p moves.
  ghost predicate Solo(run: seq<State>, s: State, p: nat) {
    && run != [] && run[0] == s
    && forall i :: 0 <= i < |run| - 1 ==> p < |run[i].processes| && StepOf(run[i], p, run[i + 1])
  }

  // The lines after the first n compare-and-sets of process p.
  function Moved(s: State, p: nat, n: nat): (r: map<nat, int>)
    requires p < |s.processes| && n <= |Steps(s, s.processes[p])|
    ensures r.Keys == s.converted.Keys
  {
    map l | l in s.converted ::
      s.converted[l] + Signed(s.processes[p], Sum(Steps(s, s.processes[p])[..n], Taken(l)))
  }

  predicate Within(s: State, converted: map<nat, int>) {
    forall l :: l in converted ==> l in s.requested && 0 <= converted[l] <= s.requested[l]
  }

  // Only a live order can be claimed for cancelling.
  predicate MayBegin(s: State, kind: Kind) {
    kind.Cancel? ==> kind.order < |s.orders| && s.orders[kind.order].live
  }

  // Where process p ends when all its compare-and-sets pass.
  function Ended(s: State, p: nat): State
    requires p < |s.processes| && MayBegin(s, s.processes[p].kind)
  {
    var kind := s.processes[p].kind;
    State(s.requested, Moved(s, p, |Steps(s, s.processes[p])|),
          match kind
          case Create(takes) => s.orders + [Order(takes, true)]
          case Cancel(o) => s.orders[o := s.orders[o].(live := false)],
          Turned(s, p, Committed))
  }

  // What a running transaction remembers of the lines it touched.
  predicate Saved(s: State, p: nat, done: nat, before: map<nat, int>)
    requires p < |s.processes| && done <= |Steps(s, s.processes[p])|
  {
    && (forall l :: l in before ==> l in s.converted && before[l] == s.converted[l])
    && (forall i :: 0 <= i < done ==> Steps(s, s.processes[p])[i].line in before)
  }

  // Where a run of process p alone can be.
  predicate IsAt(s: State, p: nat, t: State)
    requires p < |s.processes|
  {
    && t.requested == s.requested && |t.processes| == |s.processes|
    && t.processes == Turned(s, p, t.processes[p].phase)
    && match t.processes[p].phase
       case Waiting => t == s
       case Running(done, before) =>
         && MayBegin(s, s.processes[p].kind) && t.orders == s.orders && done <= |Steps(s, s.processes[p])|
         && t.converted == Moved(s, p, done) && Within(s, t.converted) && Saved(s, p, done, before)
       case Committed => MayBegin(s, s.processes[p].kind) && t == Ended(s, p) && Within(s, t.converted)
       case Aborted => t.converted == s.converted && t.orders == s.orders
  }

  lemma {:induction false} MovedNext(s: State, p: nat, n: nat)
    requires p < |s.processes| && n < |Steps(s, s.processes[p])|
    ensures Moved(s, p, n + 1).Keys == Moved(s, p, n).Keys
    ensures var x := Steps(s, s.processes[p])[n];
      forall l :: l in s.converted ==>
        Moved(s, p, n + 1)[l] == Moved(s, p, n)[l] + (if x.line == l then Signed(s.processes[p], x.quantity) else 0)
  {
    var steps, x := Steps(s, s.processes[p]), Steps(s, s.processes[p])[n];
    TakeNext(steps, n);
    forall l | l in s.converted
      ensures Moved(s, p, n + 1)[l]
           == Moved(s, p, n)[l] + (if x.line == l then Signed(s.processes[p], x.quantity) else 0)
    {
      SumSnoc(steps[..n], x, Taken(l));
    }
  }

  lemma {:induction false} MovedNothing(s: State, p: nat)
    requires p < |s.processes|
    ensures Moved(s, p, 0) == s.converted
  {
  }

  lemma {:induction false} StepsFit(s: State, p: nat)
    requires Shaped(s) && p < |s.processes|
    ensures TakesOk(s.requested.Keys, Steps(s, s.processes[p]))
  {
  }

  // The guard of the next compare-and-set, on the way, is that the line stays within bounds after it.
  lemma {:induction false} GuardMeans(s: State, p: nat, t: State)
    requires Shaped(s) && p < |s.processes| && IsAt(s, p, t) && Due(t, p)
    ensures var x, n := NextTake(t, p), t.processes[p].phase.done;
      && n < |Steps(s, s.processes[p])| && x == Steps(s, s.processes[p])[n]
      && x.line in t.converted && x.line in t.requested
      && (GuardHolds(t, t.processes[p], x) <==> Within(s, Moved(s, p, n + 1)))
  {
    StepsFit(s, p);
    assert Steps(t, t.processes[p]) == Steps(s, s.processes[p]);
    MovedNext(s, p, t.processes[p].phase.done);
  }

  lemma {:induction false} CasStaysOn(s: State, p: nat, t: State, t2: State)
    requires Shaped(s) && p < |s.processes| && IsAt(s, p, t) && Cas(t, p, t2)
    ensures IsAt(s, p, t2)
  {
    hide Shaped, FreeFor, Moved, Within, Saved, GuardHolds;
    GuardMeans(s, p, t);
    CasMovesOn(s, p, t, t2);
    CasSaves(s, p, t, t2);
  }

  lemma {:induction false} CasMovesOn(s: State, p: nat, t: State, t2: State)
    requires p < |s.processes| && IsAt(s, p, t) && Cas(t, p, t2)
    requires t.processes[p].phase.done < |Steps(s, s.processes[p])|
    requires NextTake(t, p) == Steps(s, s.processes[p])[t.processes[p].phase.done]
    ensures t2.converted == Moved(s, p, t.processes[p].phase.done + 1)
  {
    hide Within, Saved, FreeFor, GuardHolds;
    MovedNext(s, p, t.processes[p].phase.done);
  }

  lemma {:induction false} CasSaves(s: State, p: nat, t: State, t2: State)
    requires p < |s.processes| && IsAt(s, p, t) && Cas(t, p, t2)
    requires t.processes[p].phase.done < |Steps(s, s.processes[p])|
    requires NextTake(t, p) == Steps(s, s.processes[p])[t.processes[p].phase.done]
    ensures Saved(s, p, t.processes[p].phase.done + 1, t2.processes[p].phase.before)
  {
    hide Within, FreeFor, GuardHolds;
    var n, before, x := t.processes[p].phase.done, t.processes[p].phase.before, NextTake(t, p);
    if x.line !in before { NotYetMoved(s, p, n, before, x.line); }
  }

  // A line that was not touched yet holds what it held.
  lemma {:induction false} NotYetMoved(s: State, p: nat, n: nat, before: map<nat, int>, l: nat)
    requires p < |s.processes| && n <= |Steps(s, s.processes[p])| && Saved(s, p, n, before)
    requires l in s.converted && l !in before
    ensures Moved(s, p, n)[l] == s.converted[l]
  {
    var first := Steps(s, s.processes[p])[..n];
    forall x | x in first ensures Taken(l)(x) == 0 { var i :| 0 <= i < n && first[i] == x; }
    SumZero(first, Taken(l));
  }

  lemma {:induction false} RollbackStaysOn(s: State, p: nat, t: State, t2: State)
    requires p < |s.processes| && IsAt(s, p, t) && Rollback(t, p, t2)
    ensures IsAt(s, p, t2)
  {
    var n, before := t.processes[p].phase.done, t.processes[p].phase.before;
    forall l | l in s.converted ensures t2.converted[l] == s.converted[l] {
      if l !in before { NotYetMoved(s, p, n, before, l); }
    }
    assert t2.converted == s.converted;
  }

  lemma {:induction false} CommitStaysOn(s: State, p: nat, t: State, t2: State)
    requires p < |s.processes| && IsAt(s, p, t) && Commit(t, p, t2)
    ensures IsAt(s, p, t2)
  {
    assert Steps(t, t.processes[p]) == Steps(s, s.processes[p]);
  }

  lemma {:induction false} BeginStaysOn(s: State, p: nat, t: State, t2: State)
    requires Initial(s) && p < |s.processes| && IsAt(s, p, t) && Begin(t, p, t2)
    ensures IsAt(s, p, t2)
  {
    InitialInv(s);
    MovedNothing(s, p);
  }

  lemma {:induction false} SoloStays(run: seq<State>, s: State, p: nat, i: nat)
    requires Initial(s) && p < |s.processes| && Solo(run, s, p) && i < |run|
    ensures IsAt(s, p, run[i])
  {
    if i > 0 {
      hide IsAt, Begin, Cas, Commit, Rollback, Initial, Shaped;
      SoloStays(run, s, p, i - 1);
      var t, t2 := run[i - 1], run[i];
      assert StepOf(run[i - 1], p, run[i - 1 + 1]);
      InitialIsShaped(s);
      if Begin(t, p, t2) {
        BeginStaysOn(s, p, t, t2);
      } else if Cas(t, p, t2) {
        CasStaysOn(s, p, t, t2);
      } else if Commit(t, p, t2) {
        CommitStaysOn(s, p, t, t2);
      } else {
        RollbackStaysOn(s, p, t, t2);
      }
    }
  }

  lemma {:induction false} InitialIsShaped(s: State)
    requires Initial(s)
    ensures Shaped(s)
  {
  }

  // Bounds that hold in the end held all the way: a transaction moves every line in one direction.
  lemma {:induction false} WithinBefore(s: State, p: nat, n: nat)
    requires Initial(s) && p < |s.processes| && n < |Steps(s, s.processes[p])| && Within(s, Moved(s, p, n + 1))
    ensures Within(s, Moved(s, p, n))
  {
    InitialInv(s);
    StepsFit(s, p);
    MovedNext(s, p, n);
    forall l | l in s.converted ensures 0 <= Moved(s, p, n)[l] <= s.requested[l] {
      assert 0 <= Moved(s, p, n + 1)[l] <= s.requested[l];
      TakenNonNegative(s.requested.Keys, Steps(s, s.processes[p])[..n], l);
    }
  }

  lemma {:induction false} SoloStarts(s: State, p: nat) returns (run: seq<State>)
    requires Initial(s) && p < |s.processes| && MayBegin(s, s.processes[p].kind)
    ensures Solo(run, s, p) && run != [] && Reached(s, p, 0, run[|run| - 1])
  {
    InitialInv(s);
    MovedNothing(s, p);
    run := [s, s.(processes := Turned(s, p, Running(0, map[])))];
    assert Begin(run[0], p, run[1]);
  }

  lemma {:induction false} MoreIsDue(s: State, p: nat, t: State)
    requires p < |s.processes| && IsAt(s, p, t) && t.processes[p].phase.Running?
    requires t.processes[p].phase.done < |Steps(s, s.processes[p])|
    ensures p < |t.processes| && Due(t, p)
  {
  }

  // A run of process p alone up to its n-th compare-and-set.
  predicate Reached(s: State, p: nat, n: nat, t: State)
    requires p < |s.processes|
  {
    IsAt(s, p, t) && t.processes[p].phase.Running? && t.processes[p].phase.done == n
  }

  lemma {:induction false} SoloGoesOn(s: State, p: nat, n: nat, t: State) returns (t2: State)
    requires Initial(s) && p < |s.processes| && Reached(s, p, n, t)
    requires n < |Steps(s, s.processes[p])| && Within(s, Moved(s, p, n + 1))
    ensures p < |t.processes| && StepOf(t, p, t2) && Reached(s, p, n + 1, t2)
  {
    hide Initial, Within, Moved, StepOf, IsAt;
    MoreIsDue(s, p, t);
    t2 := NextCas(s, p, t);
  }

  // The state after n compare-and-sets is reached as long as the bounds hold there.
  lemma {:induction false} SoloReaches(s: State, p: nat, n: nat) returns (run: seq<State>)
    requires Initial(s) && p < |s.processes| && MayBegin(s, s.processes[p].kind)
    requires n <= |Steps(s, s.processes[p])| && Within(s, Moved(s, p, n))
    ensures Solo(run, s, p) && run != [] && Reached(s, p, n, run[|run| - 1])
  {
    hide Initial, Within, Moved, StepOf, Solo, IsAt, Steps;
    if n == 0 {
      run := SoloStarts(s, p);
    } else {
      WithinBefore(s, p, n - 1);
      var init := SoloReaches(s, p, n - 1);
      var t2 := SoloGoesOn(s, p, n - 1, init[|init| - 1]);
      run := Extended(init, s, p, t2);
    }
  }

  lemma {:induction false} Extended(init: seq<State>, s: State, p: nat, t2: State) returns (run: seq<State>)
    requires Solo(init, s, p) && p < |init[|init| - 1].processes| && StepOf(init[|init| - 1], p, t2)
    ensures Solo(run, s, p) && run != [] && run[|run| - 1] == t2
  {
    hide StepOf;
    run := init + [t2];
    forall i | 0 <= i < |run| - 1 ensures p < |run[i].processes| && StepOf(run[i], p, run[i + 1]) {
      if i < |init| - 1 { assert StepOf(init[i], p, init[i + 1]); }
    }
  }

  lemma {:induction false} NextCas(s: State, p: nat, t: State) returns (t2: State)
    requires Initial(s) && p < |s.processes| && IsAt(s, p, t) && Due(t, p)
    requires t.processes[p].phase.done < |Steps(s, s.processes[p])|
    requires Within(s, Moved(s, p, t.processes[p].phase.done + 1))
    ensures StepOf(t, p, t2) && IsAt(s, p, t2)
    ensures t2.processes[p].phase.Running? && t2.processes[p].phase.done == t.processes[p].phase.done + 1
  {
    GuardMeans(s, p, t);
    var x, proc := NextTake(t, p), t.processes[p];
    t2 := t.(converted := t.converted[x.line := t.converted[x.line] + Signed(proc, x.quantity)],
             processes := Turned(t, p, Running(proc.phase.done + 1,
                                               if x.line in proc.phase.before then proc.phase.before
                                               else proc.phase.before[x.line := t.converted[x.line]])));
    assert Cas(t, p, t2);
    CasStaysOn(s, p, t, t2);
  }

  // A run of process p alone that ends with it committed, or rolled back.
  ghost predicate EndsIn(run: seq<State>, s: State, p: nat, phase: Phase) {
    && Solo(run, s, p) && p < |run[|run| - 1].processes| && run[|run| - 1].processes[p].phase == phase
  }

  ghost predicate CommitsAlone(s: State, p: nat) {
    exists run: seq<State> :: EndsIn(run, s, p, Committed)
  }

  // Alone, a transaction can commit exactly when it may begin and every line can bear all that it moves.
  lemma {:induction false} CommitsAloneIff(s: State, p: nat)
    requires Initial(s) && p < |s.processes|
    ensures CommitsAlone(s, p) <==>
      MayBegin(s, s.processes[p].kind) && Within(s, Moved(s, p, |Steps(s, s.processes[p])|))
  {
    hide Initial, Begin, Cas, Rollback, Within, Moved;
    var n := |Steps(s, s.processes[p])|;
    if CommitsAlone(s, p) {
      var run: seq<State> :| EndsIn(run, s, p, Committed);
      SoloStays(run, s, p, |run| - 1);
    }
    if MayBegin(s, s.processes[p].kind) && Within(s, Moved(s, p, n)) {
      var init := SoloReaches(s, p, n);
      var t := init[|init| - 1];
      var t2 := Ended(s, p);
      assert Commit(t, p, t2);
      var run := Extended(init, s, p, t2);
      assert EndsIn(run, s, p, Committed);
    }
  }

  // There is one state it can commit in, and its rollback restores every line.
  lemma {:induction false} AloneEnds(run: seq<State>, s: State, p: nat)
    requires Initial(s) && p < |s.processes|
    ensures EndsIn(run, s, p, Committed) ==> MayBegin(s, s.processes[p].kind) && run[|run| - 1] == Ended(s, p)
    ensures EndsIn(run, s, p, Aborted) ==>
      run[|run| - 1].converted == s.converted && run[|run| - 1].orders == s.orders
  {
    if EndsIn(run, s, p, Committed) || EndsIn(run, s, p, Aborted) { SoloStays(run, s, p, |run| - 1); }
  }

  // ---------------------------------------------------------------------------------------------
  // The tables as a state of the protocol
  // ---------------------------------------------------------------------------------------------

  function TakeOf(x: Source): Take {
    Take(x.prLine, x.quantity)
  }

  function TakesOf(rows: seq<Source>): (r: seq<Take>)
    ensures |r| == |rows| && forall i :: 0 <= i < |rows| ==> r[i] == TakeOf(rows[i])
  {
    seq(|rows|, i requires 0 <= i < |rows| => TakeOf(rows[i]))
  }

  function AskedTakes(sources: seq<Orders.SourceRequest>): (r: seq<Take>)
    ensures |r| == |sources|
    ensures forall i :: 0 <= i < |sources| ==> r[i] == Take(sources[i].prLine, sources[i].quantity)
  {
    seq(|sources|, i requires 0 <= i < |sources| => Take(sources[i].prLine, sources[i].quantity))
  }

  function RowsOf(db: Db, po: nat): seq<Source> {
    Select(db.sources, Orders.FeedingPo(db.poLines, po))
  }

  function OrderOf(db: Db, po: nat): Order
    requires po < |db.pos|
  {
    Order(TakesOf(RowsOf(db, po)), db.pos[po].status != PoCancelled)
  }

  function OrdersOf(db: Db): (r: seq<Order>)
    ensures |r| == |db.pos| && forall o :: 0 <= o < |db.pos| ==> r[o] == OrderOf(db, o)
  {
    seq(|db.pos|, o requires 0 <= o < |db.pos| => OrderOf(db, o))
  }

  function RequestedOf(lines: map<nat, PrLine>): (r: map<nat, int>)
    ensures r.Keys == lines.Keys
  {
    map l | l in lines :: lines[l].requested
  }

  function ConvertedOf(lines: map<nat, PrLine>): (r: map<nat, int>)
    ensures r.Keys == lines.Keys
  {
    map l | l in lines :: lines[l].converted
  }

  function StateOf(db: Db, processes: seq<Process>): State {
    State(RequestedOf(db.prLines), ConvertedOf(db.prLines), OrdersOf(db), processes)
  }

  // Transactions that are yet to start, on requisition lines that exist.
  predicate Ready(db: Db, processes: seq<Process>) {
    forall q :: 0 <= q < |processes| ==>
      && processes[q].phase == Waiting
      && (processes[q].kind.Create? ==> TakesOk(db.prLines.Keys, processes[q].kind.takes))
  }

  // What order `po` draws from line l, row by row.
  function DrawnBy(db: Db, l: nat): (int, Source) -> int {
    (po: int, x: Source) =>
      if 0 <= po < |db.pos| && db.pos[po].status != PoCancelled && Orders.FeedsPo(db.poLines, po, x) && x.prLine == l
      then x.quantity else 0
  }

  lemma {:induction false} TakesSum(rows: seq<Source>, l: nat)
    ensures Sum(TakesOf(rows), Taken(l)) == Sum(rows, OrderRules.GivingTo(l))
  {
    SumAlike(TakesOf(rows), rows, Taken(l), OrderRules.GivingTo(l));
  }

  lemma {:induction false} AskedSum(sources: seq<Orders.SourceRequest>, l: nat)
    ensures Sum(AskedTakes(sources), Taken(l)) == Sum(sources, OrderRules.Taking(l))
  {
    SumAlike(AskedTakes(sources), sources, Taken(l), OrderRules.Taking(l));
  }

  lemma {:induction false} OrderDraws(db: Db, o: nat, l: nat)
    requires o < |db.pos|
    ensures Drawn(l)(OrderOf(db, o)) == RowSums<int, Source>(DrawnBy(db, l), db.sources)(o)
  {
    var rows, g := RowsOf(db, o), Given<int, Source>(DrawnBy(db, l), o);
    TakesSum(rows, l);
    if db.pos[o].status == PoCancelled {
      SumZero(db.sources, g);
    } else {
      SumSelect(db.sources, Orders.FeedingPo(db.poLines, o), OrderRules.GivingTo(l), g);
    }
  }

  lemma {:induction false} SourceDrawsOnce(db: Db, x: Source, l: nat)
    requires forall j :: 0 <= j < |db.poLines| ==> db.poLines[j].po < |db.pos|
    requires x.poLine < |db.poLines|
    ensures Sum(Positions(|db.pos|), Against(DrawnBy(db, l), x)) == OrderRules.LiveOn(db.pos, db.poLines, l)(x)
  {
    SumOnly(Positions(|db.pos|), db.poLines[x.poLine].po, Against(DrawnBy(db, l), x));
  }

  // What the orders of the state draw from a line is what the source rows of live orders do.
  lemma {:induction false} LiveSumIs(db: Db, l: nat)
    requires OrderKeys(db.pos, db.poLines, db.sources, db.prLines)
    ensures LiveSum(OrdersOf(db), l) == Sum(db.sources, OrderRules.LiveOn(db.pos, db.poLines, l))
  {
    hide Sum;
    var f, places := DrawnBy(db, l), Positions(|db.pos|);
    forall o | 0 <= o < |db.pos| ensures Drawn(l)(OrdersOf(db)[o]) == RowSums(f, db.sources)(places[o]) {
      OrderDraws(db, o, l);
    }
    SumAlike(OrdersOf(db), places, Drawn(l), RowSums(f, db.sources));
    DoubleCount(places, db.sources, f);
    forall x | x in db.sources
      ensures ColumnSums(f, places)(x) == OrderRules.LiveOn(db.pos, db.poLines, l)(x)
    {
      SourceDrawsOnce(db, x, l);
    }
    SumEqual(db.sources, ColumnSums(f, places), OrderRules.LiveOn(db.pos, db.poLines, l));
  }

  lemma {:induction false} OrderTakesOk(db: Db, o: nat)
    requires OrderKeys(db.pos, db.poLines, db.sources, db.prLines) && o < |db.pos|
    ensures TakesOk(db.prLines.Keys, OrderOf(db, o).takes)
  {
    var rows := RowsOf(db, o);
    forall i | 0 <= i < |rows| ensures rows[i].prLine in db.prLines && rows[i].quantity > 0 {
      assert rows[i] in rows;
    }
  }

  // Every reachable state, with any transactions about to start, is one the protocol can start in.
  lemma {:induction false} ValidIsInitial(db: Db, processes: seq<Process>)
    requires Valid(db) && Stored(db) && Ready(db, processes)
    ensures Initial(StateOf(db, processes))
  {
    var s := StateOf(db, processes);
    forall o | 0 <= o < |s.orders| ensures TakesOk(s.requested.Keys, s.orders[o].takes) { OrderTakesOk(db, o); }
    forall l | l in s.converted ensures s.converted[l] == LiveSum(s.orders, l) <= s.requested[l] {
      LiveSumIs(db, l);
      assert RequisitionRules.LineFits(db.prLines[l]);
    }
  }

  // ---------------------------------------------------------------------------------------------
  // What the services do to the orders
  // ---------------------------------------------------------------------------------------------

  lemma {:induction false} TakesConcat(a: seq<Source>, b: seq<Source>)
    ensures TakesOf(a + b) == TakesOf(a) + TakesOf(b)
  {
  }

  lemma {:induction false} AskedConcat(a: seq<Orders.SourceRequest>, b: seq<Orders.SourceRequest>)
    ensures AskedTakes(a + b) == AskedTakes(a) + AskedTakes(b)
  {
  }

  lemma {:induction false} WrittenItem(po: nat, w: Orders.Writing, item: Orders.ItemRequest)
    requires forall x :: x in item.sources ==> x.prLine in w.lines
    requires Orders.WriteItem(po, w, item).Ok?
    ensures TakesOf(Orders.WriteItem(po, w, item).value.sources) == TakesOf(w.sources) + AskedTakes(item.sources)
  {
    hide Orders.Convert, Orders.NoRepeats, Orders.NewLine;
    var rows := Orders.SourcesOf(|w.poLines|, item.sources);
    TakesConcat(w.sources, rows);
    assert TakesOf(rows) == AskedTakes(item.sources);
  }

  lemma {:induction false} WriteItemsFront(po: nat, w: Orders.Writing, items: seq<Orders.ItemRequest>)
    requires items != [] && Orders.SourcesExist(w.lines, items) && Orders.WriteItems(po, w, items).Ok?
    ensures (forall x :: x in items[0].sources ==> x.prLine in w.lines) && Orders.WriteItem(po, w, items[0]).Ok?
    ensures var next := Orders.WriteItem(po, w, items[0]).value;
      && Orders.SourcesExist(next.lines, items[1..])
      && Orders.WriteItems(po, next, items[1..]) == Orders.WriteItems(po, w, items)
  {
    hide Orders.Convert, Orders.NoRepeats, Orders.NewLine, Orders.SourcesOf;
  }

  // The source rows of a new order are what was asked for, in order.
  lemma {:induction false} WrittenTakes(po: nat, w: Orders.Writing, items: seq<Orders.ItemRequest>)
    requires Orders.SourcesExist(w.lines, items) && Orders.WriteItems(po, w, items).Ok?
    ensures TakesOf(Orders.WriteItems(po, w, items).value.sources)
         == TakesOf(w.sources) + AskedTakes(ChainLaws.AllSources(items))
    decreases |items|
  {
    if items != [] {
      hide Orders.WriteItem, Orders.WriteItems, Orders.SourcesExist, TakesOf, AskedTakes;
      WriteItemsFront(po, w, items);
      var next := Orders.WriteItem(po, w, items[0]).value;
      WrittenItem(po, w, items[0]);
      WrittenTakes(po, next, items[1..]);
      var first, rest := items[0].sources, ChainLaws.AllSources(items[1..]);
      AskedConcat(first, rest);
      Regroup(TakesOf(w.sources), AskedTakes(first), AskedTakes(rest));
    }
  }

  // The older source rows feed older orders, the new ones the new order.
  lemma {:induction false} RowsFeed(db: Db, after: Db, tail: seq<Source>)
    requires Stored(db) && Stored(after) && OrderRules.PoAdds(db, after) && after.sources == db.sources + tail
    ensures forall x :: x in db.sources ==>
      x.poLine < |db.poLines| <= |after.poLines| && after.poLines[x.poLine] == db.poLines[x.poLine]
    ensures forall x :: x in db.sources ==> db.poLines[x.poLine].po < |db.pos|
    ensures forall x :: x in tail ==> x.poLine < |after.poLines| && after.poLines[x.poLine].po == |db.pos|
  {
    hide OrderRules.OnlyFlips, RequisitionKeys, ReceiptKeys, BalanceChecks;
    forall x | x in db.sources ensures after.poLines[x.poLine] == db.poLines[x.poLine] {
      assert after.poLines[..|db.poLines|][x.poLine] == after.poLines[x.poLine];
    }
    forall x | x in tail ensures x.poLine < |after.poLines| && after.poLines[x.poLine].po == |db.pos| {
      var i :| 0 <= i < |tail| && tail[i] == x;
      assert after.sources[|db.sources| + i] == x && x in after.sources;
    }
  }

  lemma {:induction false} NewRowsFeed(db: Db, after: Db)
    requires Stored(db) && Stored(after) && OrderRules.PoAdds(db, after)
    ensures RowsOf(after, |db.pos|) == after.sources[|db.sources|..]
    ensures forall o :: 0 <= o < |db.pos| ==> RowsOf(after, o) == RowsOf(db, o)
  {
    hide OrderRules.OnlyFlips, Stored, Select;
    var tail := after.sources[|db.sources|..];
    assert after.sources == db.sources + tail;
    RowsFeed(db, after, tail);
    var feeding := Orders.FeedingPo(after.poLines, |db.pos|);
    SelectConcat(db.sources, tail, feeding);
    SelectNone(db.sources, feeding);
    SelectAll(tail, feeding);
    forall o | 0 <= o < |db.pos| ensures RowsOf(after, o) == RowsOf(db, o) {
      var was, now := Orders.FeedingPo(db.poLines, o), Orders.FeedingPo(after.poLines, o);
      SelectConcat(db.sources, tail, now);
      SelectAlike(db.sources, was, now);
      SelectNone(tail, now);
    }
  }

  lemma {:induction false} RequestedStays(lines: map<nat, PrLine>, lines2: map<nat, PrLine>)
    requires lines2.Keys == lines.Keys
    requires forall l :: l in lines ==> lines2[l] == lines[l].(converted := lines2[l].converted)
    ensures RequestedOf(lines2) == RequestedOf(lines)
  {
    forall l | l in lines ensures lines2[l].requested == lines[l].requested {
      assert lines2[l] == lines[l].(converted := lines2[l].converted);
    }
  }

  lemma {:induction false} OrderAdded(db: Db, after: Db, takes: seq<Take>)
    requires |after.pos| == |db.pos| + 1 && after.pos[..|db.pos|] == db.pos
    requires after.pos[|db.pos|].status != PoCancelled && TakesOf(RowsOf(after, |db.pos|)) == takes
    requires forall o :: 0 <= o < |db.pos| ==> RowsOf(after, o) == RowsOf(db, o)
    ensures OrdersOf(after) == OrdersOf(db) + [Order(takes, true)]
  {
    hide RowsOf, TakesOf;
    forall o | 0 <= o < |db.pos| ensures OrderOf(after, o) == OrderOf(db, o) {
      assert after.pos[..|db.pos|][o] == after.pos[o];
    }
  }

  // create_po adds one order, which takes what was asked for.
  lemma {:induction false} CreatedOrders(db: Db, user: User, m: Master, supplier: int,
          items: seq<Orders.ItemRequest>, after: Db)
    requires Valid(db) && Stored(db) && Stored(after)
    requires Orders.CreatedPo(db, user, m, supplier, items) == Ok(after)
    ensures OrdersOf(after) == OrdersOf(db) + [Order(AskedTakes(ChainLaws.AllSources(items)), true)]
    ensures RequestedOf(after.prLines) == RequestedOf(db.prLines)
  {
    var takes := CreatedTakes(db, user, m, supplier, items, after);
    OrderAdded(db, after, takes);
    RequestedStays(db.prLines, after.prLines);
  }

  lemma {:induction false} CreatedSources(db: Db, user: User, m: Master, supplier: int,
          items: seq<Orders.ItemRequest>, after: Db)
    requires Orders.CreatedPo(db, user, m, supplier, items) == Ok(after)
    ensures TakesOf(after.sources) == TakesOf(db.sources) + AskedTakes(ChainLaws.AllSources(items))
    ensures |after.pos| == |db.pos| + 1 && after.pos[..|db.pos|] == db.pos
    ensures after.pos[|db.pos|].status != PoCancelled
  {
    hide Orders.FlipToConverted, Orders.TouchedPrs, Orders.WriteItems, TakesOf, AskedTakes, ChainLaws.AllSources;
    WrittenTakes(|db.pos|, Orders.Writing(db.prLines, db.poLines, db.sources, 0), items);
  }

  lemma {:induction false} TailTakes(base: seq<Source>, all: seq<Source>, takes: seq<Take>)
    requires |base| <= |all| && all[..|base|] == base && TakesOf(all) == TakesOf(base) + takes
    ensures TakesOf(all[|base|..]) == takes
  {
    TakesConcat(base, all[|base|..]);
    assert base + all[|base|..] == all;
  }

  lemma {:induction false} CreatedTakes(db: Db, user: User, m: Master, supplier: int,
          items: seq<Orders.ItemRequest>, after: Db) returns (takes: seq<Take>)
    requires Valid(db) && Stored(db) && Stored(after)
    requires Orders.CreatedPo(db, user, m, supplier, items) == Ok(after)
    ensures takes == AskedTakes(ChainLaws.AllSources(items)) == TakesOf(RowsOf(after, |db.pos|))
    ensures OrderRules.PoAdds(db, after) && forall o :: 0 <= o < |db.pos| ==> RowsOf(after, o) == RowsOf(db, o)
    ensures |after.pos| == |db.pos| + 1 && after.pos[..|db.pos|] == db.pos
    ensures after.pos[|db.pos|].status != PoCancelled
  {
    hide OrderRules.OrdersOk, RequisitionRules.RequisitionsOk, Stored, Orders.CreatedPo, RowsOf, TakesOf, AskedTakes;
    takes := AskedTakes(ChainLaws.AllSources(items));
    OrderRules.CreatedPoKeepsRules(db, user, m, supplier, items, after);
    NewRowsFeed(db, after);
    CreatedSources(db, user, m, supplier, items, after);
    TailTakes(db.sources, after.sources, takes);
  }

  lemma {:induction false} OrderEnded(db: Db, after: Db, po: nat)
    requires after.poLines == db.poLines && after.sources == db.sources && po < |db.pos| == |after.pos|
    requires after.pos[po].status == PoCancelled
    requires forall o :: 0 <= o < |db.pos| && o != po ==> after.pos[o] == db.pos[o]
    ensures OrdersOf(after) == OrdersOf(db)[po := OrderOf(db, po).(live := false)]
  {
    hide RowsOf, TakesOf;
    forall o | 0 <= o < |db.pos| ensures RowsOf(after, o) == RowsOf(db, o) { SameRows(db, after, o); }
  }

  lemma {:induction false} SameRows(db: Db, after: Db, o: nat)
    requires after.poLines == db.poLines && after.sources == db.sources
    ensures RowsOf(after, o) == RowsOf(db, o)
  {
  }

  // cancel_po ends one order.
  lemma {:induction false} CancelledOrders(db: Db, user: User, po: nat, version: nat, after: Db)
    requires Valid(db) && Stored(db) && Orders.CancelledPo(db, user, po, version) == Ok(after)
    ensures po < |db.pos| && OrdersOf(after) == OrdersOf(db)[po := OrderOf(db, po).(live := false)]
    ensures RequestedOf(after.prLines) == RequestedOf(db.prLines)
  {
    hide Valid, Orders.CancelledPo, OrdersOf, OrderOf, RequestedOf;
    ChainLaws.CancelEffect(db, user, po, version, after);
    OrderEnded(db, after, po);
    RequestedStays(db.prLines, after.prLines);
  }

  // In every reachable state a line has converted what the orders draw from it.
  lemma {:induction false} ConvertedIsDrawn(db: Db, l: nat)
    requires Valid(db) && Stored(db) && l in db.prLines
    ensures db.prLines[l].converted == LiveSum(OrdersOf(db), l)
  {
    hide RequisitionRules.RequisitionsOk, LiveSum;
    LiveSumIs(db, l);
  }

  // ---------------------------------------------------------------------------------------------
  // The services as transactions
  // ---------------------------------------------------------------------------------------------

  lemma {:induction false} BoundIsBears(db: Db, sources: seq<Orders.SourceRequest>, l: nat)
    requires l in db.prLines && RequisitionRules.LineFits(db.prLines[l])
    ensures 0 <= db.prLines[l].converted + Sum(AskedTakes(sources), Taken(l)) <= db.prLines[l].requested
       <==> OrderRules.Bears(db.prLines, sources, l)
  {
    AskedSum(sources, l);
    SumNonNegative(sources, OrderRules.Taking(l));
  }

  lemma {:induction false} WithinIsBears(db: Db, sources: seq<Orders.SourceRequest>, processes: seq<Process>, p: nat)
    requires forall l :: l in db.prLines ==> RequisitionRules.LineFits(db.prLines[l])
    requires p < |processes| && processes[p].kind == Create(AskedTakes(sources))
    ensures var s := StateOf(db, processes);
      Within(s, Moved(s, p, |sources|)) <==> forall l :: l in db.prLines ==> OrderRules.Bears(db.prLines, sources, l)
  {
    hide AskedTakes, Sum, OrderRules.Bears, OrdersOf;
    var s := StateOf(db, processes);
    assert Steps(s, processes[p])[..|sources|] == AskedTakes(sources);
    forall l | l in db.prLines
      ensures 0 <= Moved(s, p, |sources|)[l] <= s.requested[l] <==> OrderRules.Bears(db.prLines, sources, l)
    {
      BoundIsBears(db, sources, l);
    }
  }

  lemma {:induction false} LinesAllFit(db: Db)
    requires Valid(db)
    ensures forall l :: l in db.prLines ==> RequisitionRules.LineFits(db.prLines[l])
  {
  }

  lemma {:induction false} CreateEndsAs(db: Db, takes: seq<Take>, after: Db, processes: seq<Process>, p: nat)
    requires Valid(db) && Stored(db) && Valid(after) && Stored(after)
    requires p < |processes| && processes[p].kind == Create(takes)
    requires OrdersOf(after) == OrdersOf(db) + [Order(takes, true)]
    requires RequestedOf(after.prLines) == RequestedOf(db.prLines)
    ensures Ended(StateOf(db, processes), p) == StateOf(after, processes[p := processes[p].(phase := Committed)])
  {
    hide Valid, Stored, OrdersOf, LiveSum;
    var s := StateOf(db, processes);
    assert takes[..|takes|] == takes;
    assert after.prLines.Keys == RequestedOf(after.prLines).Keys == db.prLines.Keys;
    forall l | l in db.prLines ensures Moved(s, p, |takes|)[l] == after.prLines[l].converted {
      ConvertedIsDrawn(db, l);
      ConvertedIsDrawn(after, l);
      OneMoreOrder(OrdersOf(db), takes, l);
    }
    assert Moved(s, p, |takes|) == ConvertedOf(after.prLines);
  }

  lemma {:induction false} OneMoreOrder(orders: seq<Order>, takes: seq<Take>, l: nat)
    ensures LiveSum(orders + [Order(takes, true)], l) == LiveSum(orders, l) + Sum(takes, Taken(l))
  {
    SumSnoc(orders, Order(takes, true), Drawn(l));
  }

  // create_po run as a transaction of the protocol: it can commit exactly when the compare-and-sets of the service
  // pass, and then leaves the tables as the service does.
  lemma {:induction false} CreateRunsAlone(db: Db, user: User, m: Master, supplier: int,
          items: seq<Orders.ItemRequest>, processes: seq<Process>, p: nat)
    requires Valid(db) && Stored(db) && Ready(db, processes) && p < |processes|
    requires processes[p].kind == Create(AskedTakes(ChainLaws.AllSources(items)))
    ensures Initial(StateOf(db, processes))
    ensures Orders.CreatedPo(db, user, m, supplier, items).Ok? <==>
      && Acceptance.WellAsked(db, m, supplier, items) && ChainLaws.NothingRepeats(items)
      && CommitsAlone(StateOf(db, processes), p)
    ensures Orders.CreatedPo(db, user, m, supplier, items).Ok? ==>
      Ended(StateOf(db, processes), p)
        == StateOf(Orders.CreatedPo(db, user, m, supplier, items).value,
                   processes[p := processes[p].(phase := Committed)])
  {
    hide Valid, Stored, Orders.CreatedPo, Acceptance.WellAsked, ChainLaws.NothingRepeats, OrderRules.Bears, Initial;
    hide OrdersOf, RequestedOf, Within, Moved, CommitsAlone, AskedTakes, Ended;
    var sources := ChainLaws.AllSources(items);
    ValidIsInitial(db, processes);
    CommitsAloneIff(StateOf(db, processes), p);
    ChainLaws.CreatePoSucceedsIff(db, user, m, supplier, items);
    LinesAllFit(db);
    WithinIsBears(db, sources, processes, p);
    if Orders.CreatedPo(db, user, m, supplier, items).Ok? {
      var after := Orders.CreatedPo(db, user, m, supplier, items).value;
      CreatedPoKeepsValid(db, user, m, supplier, items, after);
      ValidIsStored(after);
      CreatedOrders(db, user, m, supplier, items, after);
      CreateEndsAs(db, AskedTakes(sources), after, processes, p);
    }
  }

  lemma {:induction false} OneLiveOrderLess(orders: seq<Order>, o: nat, l: nat)
    requires o < |orders| && orders[o].live
    ensures LiveSum(orders[o := orders[o].(live := false)], l)
         == LiveSum(orders, l) - Sum(orders[o].takes, Taken(l))
  {
    SumUpdate(orders, o, orders[o].(live := false), Drawn(l));
  }

  // Of what an order took, every line still holds all.
  lemma {:induction false} CancelStaysWithin(s: State, p: nat)
    requires Initial(s) && p < |s.processes| && s.processes[p].kind.Cancel? && MayBegin(s, s.processes[p].kind)
    ensures Within(s, Moved(s, p, |Steps(s, s.processes[p])|))
  {
    var o := s.processes[p].kind.order;
    var takes := s.orders[o].takes;
    assert takes[..|takes|] == takes;
    forall l | l in s.converted ensures 0 <= Moved(s, p, |takes|)[l] <= s.requested[l] {
      LiveSumNonNegative(s.requested.Keys, s.orders, l);
      TakenNonNegative(s.requested.Keys, takes, l);
    }
  }

  lemma {:induction false} CancelEndsAs(db: Db, po: nat, after: Db, processes: seq<Process>, p: nat)
    requires Valid(db) && Stored(db) && Valid(after) && Stored(after)
    requires p < |processes| && processes[p].kind == Cancel(po)
    requires po < |db.pos| && db.pos[po].status != PoCancelled
    requires OrdersOf(after) == OrdersOf(db)[po := OrderOf(db, po).(live := false)]
    requires RequestedOf(after.prLines) == RequestedOf(db.prLines)
    ensures Ended(StateOf(db, processes), p) == StateOf(after, processes[p := processes[p].(phase := Committed)])
  {
    hide Valid, Stored, LiveSum;
    var s, takes := StateOf(db, processes), OrderOf(db, po).takes;
    assert takes[..|takes|] == takes;
    assert after.prLines.Keys == RequestedOf(after.prLines).Keys == db.prLines.Keys;
    forall l | l in db.prLines ensures Moved(s, p, |takes|)[l] == after.prLines[l].converted {
      ConvertedIsDrawn(db, l);
      ConvertedIsDrawn(after, l);
      OneLiveOrderLess(OrdersOf(db), po, l);
    }
    assert Moved(s, p, |takes|) == ConvertedOf(after.prLines);
  }

  // cancel_po run as a transaction of the protocol: it can always commit on a live order, and leaves the tables as the
  // service does.
  lemma {:induction false} CancelRunsAlone(db: Db, user: User, po: nat, version: nat, processes: seq<Process>, p: nat)
    requires Valid(db) && Stored(db) && Ready(db, processes)
    requires p < |processes| && processes[p].kind == Cancel(po)
    ensures Initial(StateOf(db, processes))
    ensures CommitsAlone(StateOf(db, processes), p) <==> po < |db.pos| && db.pos[po].status != PoCancelled
    ensures Orders.CancelledPo(db, user, po, version).Ok? ==>
      && CommitsAlone(StateOf(db, processes), p) && MayBegin(StateOf(db, processes), Cancel(po))
      && Ended(StateOf(db, processes), p)
           == StateOf(Orders.CancelledPo(db, user, po, version).value,
                      processes[p := processes[p].(phase := Committed)])
  {
    hide Valid, Orders.CancelledPo, Initial, RequestedOf, Within, Moved, CommitsAlone, Ended;
    ValidIsInitial(db, processes);
    var s := StateOf(db, processes);
    CommitsAloneIff(s, p);
    if MayBegin(s, Cancel(po)) { CancelStaysWithin(s, p); }
    if Orders.CancelledPo(db, user, po, version).Ok? {
      var after := Orders.CancelledPo(db, user, po, version).value;
      ChainLaws.CancelPoSucceedsIff(db, user, po, version);
      CancelledPoKeepsValid(db, user, po, version, after);
      ValidIsStored(after);
      CancelledOrders(db, user, po, version, after);
      CancelEndsAs(db, po, after, processes, p);
    }
  }
}
