/**
 Conversions and cancellations at once: any number of create_po and cancel_po transactions interleave their single
 compare-and-set steps on requisition lines. A line touched by a transaction stays locked until that transaction commits
 or is rolled back, and a rollback restores what the line held before.
 */
module ConversionProtocol {
  import opened Sums

  // ---------------------------------------------------------------------------------------------
  // State
  // ---------------------------------------------------------------------------------------------

  datatype Take = Take(line: nat, quantity: int)
  datatype Order = Order(takes: seq<Take>, live: bool)

  datatype Kind = Create(takes: seq<Take>) | Cancel(order: nat)
  // `done` compare-and-sets were made; `before` holds the touched lines as they were found.
  datatype Phase = Waiting | Running(done: nat, before: map<nat, int>) | Committed | Aborted
  datatype Process = Process(kind: Kind, phase: Phase)

  datatype State = State(requested: map<nat, int>, converted: map<nat, int>, orders: seq<Order>,
                         processes: seq<Process>)

  function Taken(l: nat): Take -> int {
    (x: Take) => if x.line == l then x.quantity else 0
  }

  function Drawn(l: nat): Order -> int {
    (o: Order) => if o.live then Sum(o.takes, Taken(l)) else 0
  }

  // What the committed live orders draw from a line.
  function LiveSum(orders: seq<Order>, l: nat): int {
    Sum(orders, Drawn(l))
  }

  predicate Touches(p: Process, l: nat) {
    p.phase.Running? && l in p.phase.before
  }

  predicate FreeFor(s: State, p: nat, l: nat) {
    forall q :: 0 <= q < |s.processes| && q != p ==> !Touches(s.processes[q], l)
  }

  predicate Cancels(p: Process, o: nat) {
    p.phase.Running? && p.kind == Cancel(o)
  }

  // The compare-and-sets a transaction makes, and their direction.
  function Steps(s: State, p: Process): seq<Take> {
    match p.kind
    case Create(takes) => takes
    case Cancel(o) => if o < |s.orders| then s.orders[o].takes else []
  }

  function Signed(p: Process, quantity: int): int {
    if p.kind.Create? then quantity else -quantity
  }

  function Turned(s: State, p: nat, phase: Phase): seq<Process>
    requires p < |s.processes|
  {
    s.processes[p := s.processes[p].(phase := phase)]
  }

  // ---------------------------------------------------------------------------------------------
  // Transitions
  // ---------------------------------------------------------------------------------------------

  // A cancellation starts by claiming its order, which must be live.
  ghost predicate Begin(s: State, p: nat, s2: State)
    requires p < |s.processes|
  {
    && s.processes[p].phase == Waiting
    && (s.processes[p].kind.Cancel? ==>
          && s.processes[p].kind.order < |s.orders| && s.orders[s.processes[p].kind.order].live
          && forall q :: 0 <= q < |s.processes| ==> !Cancels(s.processes[q], s.processes[p].kind.order))
    && s2 == s.(processes := Turned(s, p, Running(0, map[])))
  }

  predicate GuardHolds(s: State, p: Process, x: Take)
    requires x.line in s.converted && x.line in s.requested
  {
    if p.kind.Create? then s.converted[x.line] + x.quantity <= s.requested[x.line]
    else s.converted[x.line] >= x.quantity
  }

  predicate Due(s: State, p: nat)
    requires p < |s.processes|
  {
    s.processes[p].phase.Running? && s.processes[p].phase.done < |Steps(s, s.processes[p])|
  }

  function NextTake(s: State, p: nat): Take
    requires p < |s.processes| && Due(s, p)
  {
    Steps(s, s.processes[p])[s.processes[p].phase.done]
  }

  // One compare-and-set: take the row lock, check the guard on the current value, move it.
  ghost predicate Cas(s: State, p: nat, s2: State)
    requires p < |s.processes|
  {
    && Due(s, p)
    && var x, proc := NextTake(s, p), s.processes[p];
       && x.line in s.converted && x.line in s.requested && FreeFor(s, p, x.line) && GuardHolds(s, proc, x)
       && s2 == s.(converted := s.converted[x.line := s.converted[x.line] + Signed(proc, x.quantity)],
                   processes := Turned(s, p, Running(proc.phase.done + 1,
                                  if x.line in proc.phase.before then proc.phase.before
                                  else proc.phase.before[x.line := s.converted[x.line]])))
  }

  ghost predicate Commit(s: State, p: nat, s2: State)
    requires p < |s.processes|
  {
    var proc := s.processes[p];
    && proc.phase.Running? && proc.phase.done == |Steps(s, proc)|
    && match proc.kind
       case Create(takes) => s2 == s.(orders := s.orders + [Order(takes, true)], processes := Turned(s, p, Committed))
       case Cancel(o) => o < |s.orders| && s2 == s.(orders := s.orders[o := s.orders[o].(live := false)],
                                                    processes := Turned(s, p, Committed))
  }

  function Undone(converted: map<nat, int>, before: map<nat, int>): (r: map<nat, int>)
    ensures r.Keys == converted.Keys
  {
    map l | l in converted :: if l in before then before[l] else converted[l]
  }

  // Rollback at any point, also when a guard fails.
  ghost predicate Rollback(s: State, p: nat, s2: State)
    requires p < |s.processes|
  {
    && s.processes[p].phase.Running?
    && s2 == s.(converted := Undone(s.converted, s.processes[p].phase.before), processes := Turned(s, p, Aborted))
  }

  ghost predicate Next(s: State, s2: State) {
    exists p :: 0 <= p < |s.processes| && (Begin(s, p, s2) || Cas(s, p, s2) || Commit(s, p, s2) || Rollback(s, p, s2))
  }

  // ---------------------------------------------------------------------------------------------
  // The invariant
  // ---------------------------------------------------------------------------------------------

  predicate TakesOk(lines: set<nat>, takes: seq<Take>) {
    forall i :: 0 <= i < |takes| ==> takes[i].line in lines && takes[i].quantity > 0
  }

  ghost predicate Shaped(s: State) {
    && s.converted.Keys == s.requested.Keys
    && (forall o :: 0 <= o < |s.orders| ==> TakesOk(s.requested.Keys, s.orders[o].takes))
    && (forall p :: 0 <= p < |s.processes| && s.processes[p].kind.Create? ==>
          TakesOk(s.requested.Keys, s.processes[p].kind.takes))
  }

  ghost predicate Exclusive(s: State) {
    && (forall p, q, l :: 0 <= p < q < |s.processes| ==> !(Touches(s.processes[p], l) && Touches(s.processes[q], l)))
    && (forall p, q, o :: 0 <= p < q < |s.processes| ==> !(Cancels(s.processes[p], o) && Cancels(s.processes[q], o)))
  }

  // A touched line is what the live orders draw plus what its transaction moved so far.
  predicate LineFits(s: State, p: Process, l: nat)
    requires p.phase.Running? && l in p.phase.before && l in s.converted && p.phase.done <= |Steps(s, p)|
  {
    && p.phase.before[l] == LiveSum(s.orders, l)
    && s.converted[l] == p.phase.before[l] + Signed(p, Sum(Steps(s, p)[..p.phase.done], Taken(l)))
  }

  ghost predicate RunningFits(s: State, p: Process)
    requires p.phase.Running?
  {
    && (p.kind.Cancel? ==> p.kind.order < |s.orders| && s.orders[p.kind.order].live)
    && p.phase.done <= |Steps(s, p)|
    && (forall i :: 0 <= i < p.phase.done ==> Steps(s, p)[i].line in p.phase.before)
    && (forall l :: l in p.phase.before ==> l in s.converted && LineFits(s, p, l))
  }

  predicate Untouched(s: State, l: nat) {
    forall p :: 0 <= p < |s.processes| ==> !Touches(s.processes[p], l)
  }

  ghost predicate Inv(s: State) {
    && Shaped(s) && Exclusive(s)
    && (forall p :: 0 <= p < |s.processes| && s.processes[p].phase.Running? ==> RunningFits(s, s.processes[p]))
    && (forall l :: l in s.converted && Untouched(s, l) ==> s.converted[l] == LiveSum(s.orders, l))
    && (forall l :: l in s.converted ==>
          0 <= s.converted[l] <= s.requested[l] && LiveSum(s.orders, l) <= s.requested[l])
  }

  ghost predicate Initial(s: State) {
    && Shaped(s) && (forall p :: 0 <= p < |s.processes| ==> s.processes[p].phase == Waiting)
    && (forall l :: l in s.converted ==> s.converted[l] == LiveSum(s.orders, l) <= s.requested[l])
  }

  lemma {:induction false} InitialInv(s: State)
    requires Initial(s)
    ensures Inv(s)
  {
    forall l ensures LiveSum(s.orders, l) >= 0 { LiveSumNonNegative(s.requested.Keys, s.orders, l); }
  }

  lemma {:induction false} TakenNonNegative(lines: set<nat>, takes: seq<Take>, l: nat)
    requires TakesOk(lines, takes)
    ensures Sum(takes, Taken(l)) >= 0
  {
    forall x | x in takes ensures Taken(l)(x) >= 0 { var i :| 0 <= i < |takes| && takes[i] == x; }
    SumNonNegative(takes, Taken(l));
  }

  lemma {:induction false} LiveSumNonNegative(lines: set<nat>, orders: seq<Order>, l: nat)
    requires forall o :: 0 <= o < |orders| ==> TakesOk(lines, orders[o].takes)
    ensures LiveSum(orders, l) >= 0
    ensures forall o :: 0 <= o < |orders| && orders[o].live ==> Sum(orders[o].takes, Taken(l)) <= LiveSum(orders, l)
  {
    forall o | o in orders ensures Drawn(l)(o) >= 0 {
      var i :| 0 <= i < |orders| && orders[i] == o;
      TakenNonNegative(lines, orders[i].takes, l);
    }
    SumNonNegative(orders, Drawn(l));
    forall o | 0 <= o < |orders| && orders[o].live ensures Sum(orders[o].takes, Taken(l)) <= LiveSum(orders, l) {
      SumCovers(orders, Drawn(l), o);
    }
  }

  // ---------------------------------------------------------------------------------------------
  // Each step keeps it
  // ---------------------------------------------------------------------------------------------

  lemma {:induction false} BeginKeepsInv(s: State, p: nat, s2: State)
    requires Inv(s) && p < |s.processes| && Begin(s, p, s2)
    ensures Inv(s2)
  {
    forall q | 0 <= q < |s2.processes| && s2.processes[q].phase.Running? ensures RunningFits(s2, s2.processes[q]) {
      if q != p {
        assert RunningFits(s, s.processes[q]);
        forall l | l in s.processes[q].phase.before ensures LineFits(s2, s2.processes[q], l) {
          assert LineFits(s, s.processes[q], l);
        }
      }
    }
    forall l | l in s2.converted && Untouched(s2, l) ensures s2.converted[l] == LiveSum(s2.orders, l) {
      forall q | 0 <= q < |s.processes| ensures !Touches(s.processes[q], l) { assert !Touches(s2.processes[q], l); }
    }
    BeginKeepsExclusive(s, p, s2);
  }

  lemma {:induction false} BeginKeepsExclusive(s: State, p: nat, s2: State)
    requires Exclusive(s) && p < |s.processes| && Begin(s, p, s2)
    ensures Exclusive(s2)
  {
    forall q, r, l | 0 <= q < r < |s2.processes| ensures !(Touches(s2.processes[q], l) && Touches(s2.processes[r], l)) {
      assert !(Touches(s.processes[q], l) && Touches(s.processes[r], l));
    }
    forall q, r, o | 0 <= q < r < |s2.processes| ensures !(Cancels(s2.processes[q], o) && Cancels(s2.processes[r], o)) {
      assert !(Cancels(s.processes[q], o) && Cancels(s.processes[r], o));
    }
  }

  // A line nobody touches, or only the process itself may touch.
  lemma {:induction false} FreeLine(s: State, p: nat, l: nat)
    requires p < |s.processes| && FreeFor(s, p, l) && !Touches(s.processes[p], l)
    ensures Untouched(s, l)
  {
    forall q | 0 <= q < |s.processes| ensures !Touches(s.processes[q], l) {}
  }

  lemma {:induction false} UntouchedTakesNothing(s: State, p: Process, l: nat)
    requires p.phase.Running? && RunningFits(s, p) && l !in p.phase.before
    ensures Sum(Steps(s, p)[..p.phase.done], Taken(l)) == 0
  {
    forall x | x in Steps(s, p)[..p.phase.done] ensures Taken(l)(x) == 0 {
      var i :| 0 <= i < p.phase.done && Steps(s, p)[..p.phase.done][i] == x;
      assert Steps(s, p)[i].line in p.phase.before;
    }
    SumZero(Steps(s, p)[..p.phase.done], Taken(l));
  }

  // The process that makes the compare-and-set.
  lemma {:induction false} CasMovesLine(s: State, p: nat, s2: State, l: nat)
    requires p < |s.processes| && Cas(s, p, s2) && RunningFits(s, s.processes[p])
    requires l in s.converted && (l in s.processes[p].phase.before || l == NextTake(s, p).line)
    requires l !in s.processes[p].phase.before ==>
      && s.converted[l] == LiveSum(s.orders, l)
      && Sum(Steps(s, s.processes[p])[..s.processes[p].phase.done], Taken(l)) == 0
    ensures l in s2.processes[p].phase.before && s2.processes[p].phase.done <= |Steps(s2, s2.processes[p])|
    ensures LineFits(s2, s2.processes[p], l)
  {
    var proc, x, n := s.processes[p], NextTake(s, p), s.processes[p].phase.done;
    assert Steps(s2, s2.processes[p]) == Steps(s, proc);
    TakeNext(Steps(s, proc), n);
    SumSnoc(Steps(s, proc)[..n], x, Taken(l));
    if l in proc.phase.before { assert LineFits(s, proc, l); }
  }

  lemma {:induction false} CasMoves(s: State, p: nat, s2: State)
    requires p < |s.processes| && Cas(s, p, s2) && RunningFits(s, s.processes[p])
    requires forall l :: l in s.converted && Untouched(s, l) ==> s.converted[l] == LiveSum(s.orders, l)
    ensures RunningFits(s2, s2.processes[p])
  {
    var proc, x := s.processes[p], NextTake(s, p);
    if !Touches(proc, x.line) {
      FreeLine(s, p, x.line);
      UntouchedTakesNothing(s, proc, x.line);
    }
    forall l | l in s2.processes[p].phase.before
      ensures l in s2.converted && s2.processes[p].phase.done <= |Steps(s2, s2.processes[p])|
      ensures LineFits(s2, s2.processes[p], l)
    {
      CasMovesLine(s, p, s2, l);
    }
  }

  lemma {:induction false} CasKeepsExclusive(s: State, p: nat, s2: State)
    requires Exclusive(s) && p < |s.processes| && Cas(s, p, s2)
    ensures Exclusive(s2)
  {
    var x := NextTake(s, p);
    forall q, r, l | 0 <= q < r < |s2.processes| ensures !(Touches(s2.processes[q], l) && Touches(s2.processes[r], l)) {
      assert !(Touches(s.processes[q], l) && Touches(s.processes[r], l));
    }
    forall q, r, o | 0 <= q < r < |s2.processes| ensures !(Cancels(s2.processes[q], o) && Cancels(s2.processes[r], o)) {
      assert !(Cancels(s.processes[q], o) && Cancels(s.processes[r], o));
    }
  }

  // The guards keep every line between nothing and what was requested.
  lemma {:induction false} CasStaysWithin(s: State, p: nat, s2: State)
    requires Shaped(s) && p < |s.processes| && Cas(s, p, s2) && RunningFits(s, s.processes[p])
    requires forall l :: l in s.converted ==> 0 <= s.converted[l] <= s.requested[l]
    ensures forall l :: l in s2.converted ==> 0 <= s2.converted[l] <= s2.requested[l]
  {
    var x := NextTake(s, p);
    assert x.quantity > 0;
  }

  // Processes whose touched lines, orders and progress are as before still fit.
  lemma {:induction false} OtherStillFits(s: State, s2: State, q: Process)
    requires q.phase.Running? && RunningFits(s, q)
    requires s2.orders == s.orders && s2.converted.Keys == s.converted.Keys
    requires forall l :: l in q.phase.before && l in s.converted ==> s2.converted[l] == s.converted[l]
    ensures RunningFits(s2, q)
  {
    assert Steps(s2, q) == Steps(s, q);
    forall l | l in q.phase.before ensures LineFits(s2, q, l) { assert LineFits(s, q, l); }
  }

  lemma {:induction false} CasKeepsOther(s: State, p: nat, s2: State, q: nat)
    requires Exclusive(s) && p < |s.processes| && Cas(s, p, s2)
    requires q < |s.processes| && q != p && s.processes[q].phase.Running? && RunningFits(s, s.processes[q])
    ensures s2.processes[q] == s.processes[q] && RunningFits(s2, s2.processes[q])
  {
    hide RunningFits;
    assert !Touches(s.processes[q], NextTake(s, p).line);
    OtherStillFits(s, s2, s.processes[q]);
  }

  lemma {:induction false} CasKeepsInv(s: State, p: nat, s2: State)
    requires Inv(s) && p < |s.processes| && Cas(s, p, s2)
    ensures Inv(s2)
  {
    hide RunningFits, Exclusive, LiveSum, Untouched, GuardHolds;
    CasMoves(s, p, s2);
    CasKeepsExclusive(s, p, s2);
    CasStaysWithin(s, p, s2);
    forall q | 0 <= q < |s2.processes| && s2.processes[q].phase.Running? ensures RunningFits(s2, s2.processes[q]) {
      if q != p { CasKeepsOther(s, p, s2, q); }
    }
    forall l | l in s2.converted && Untouched(s2, l) ensures s2.converted[l] == LiveSum(s2.orders, l) {
      CasUntouched(s, p, s2, l);
    }
  }

  lemma {:induction false} CasUntouched(s: State, p: nat, s2: State, l: nat)
    requires p < |s.processes| && Cas(s, p, s2) && l in s2.converted && Untouched(s2, l)
    ensures Untouched(s, l) && s2.converted[l] == s.converted[l]
  {
    assert !Touches(s2.processes[p], l);
    forall q | 0 <= q < |s.processes| ensures !Touches(s.processes[q], l) { assert !Touches(s2.processes[q], l); }
  }

  // ---------------------------------------------------------------------------------------------
  // Rolling back and committing
  // ---------------------------------------------------------------------------------------------

  lemma {:induction false} EndKeepsExclusive(s: State, p: nat, phase: Phase, s2: State)
    requires Exclusive(s) && p < |s.processes| && !phase.Running? && s2.processes == Turned(s, p, phase)
    ensures Exclusive(s2)
  {
    forall q, r, l | 0 <= q < r < |s2.processes| ensures !(Touches(s2.processes[q], l) && Touches(s2.processes[r], l)) {
      assert !(Touches(s.processes[q], l) && Touches(s.processes[r], l));
    }
    forall q, r, o | 0 <= q < r < |s2.processes| ensures !(Cancels(s2.processes[q], o) && Cancels(s2.processes[r], o)) {
      assert !(Cancels(s.processes[q], o) && Cancels(s.processes[r], o));
    }
  }

  lemma {:induction false} OnlyToucher(s: State, p: nat, q: nat, l: nat)
    requires Exclusive(s) && p < |s.processes| && q < |s.processes| && p != q && Touches(s.processes[p], l)
    ensures !Touches(s.processes[q], l)
  {
    var low, high := if p < q then p else q, if p < q then q else p;
    assert !(Touches(s.processes[low], l) && Touches(s.processes[high], l));
  }

  // A line that only process p touched is untouched once p has ended.
  lemma {:induction false} UntouchedAfter(s: State, p: nat, phase: Phase, s2: State, l: nat)
    requires p < |s.processes| && !phase.Running? && s2.processes == Turned(s, p, phase)
    requires Untouched(s2, l) && !Touches(s.processes[p], l)
    ensures Untouched(s, l)
  {
    forall q | 0 <= q < |s.processes| ensures !Touches(s.processes[q], l) { assert !Touches(s2.processes[q], l); }
  }

  lemma {:induction false} RollbackKeepsInv(s: State, p: nat, s2: State)
    requires Inv(s) && p < |s.processes| && Rollback(s, p, s2)
    ensures Inv(s2)
  {
    var proc := s.processes[p];
    assert RunningFits(s, proc);
    EndKeepsExclusive(s, p, Aborted, s2);
    forall q | 0 <= q < |s2.processes| && s2.processes[q].phase.Running? ensures RunningFits(s2, s2.processes[q]) {
      forall l | l in s.processes[q].phase.before && l in s.converted ensures s2.converted[l] == s.converted[l] {
        if Touches(proc, l) { OnlyToucher(s, p, q, l); }
      }
      OtherStillFits(s, s2, s.processes[q]);
    }
    forall l | l in s2.converted
      ensures Untouched(s2, l) ==> s2.converted[l] == LiveSum(s2.orders, l)
      ensures 0 <= s2.converted[l] <= s2.requested[l]
    {
      LiveSumNonNegative(s.requested.Keys, s.orders, l);
      if l in proc.phase.before { assert LineFits(s, proc, l); }
      if Untouched(s2, l) && !Touches(proc, l) { UntouchedAfter(s, p, Aborted, s2, l); }
    }
  }

  // What the live orders draw once transaction p has committed.
  lemma {:induction false} CommittedSum(s: State, p: nat, s2: State, l: nat)
    requires p < |s.processes| && Commit(s, p, s2) && RunningFits(s, s.processes[p])
    ensures LiveSum(s2.orders, l)
         == LiveSum(s.orders, l) + Signed(s.processes[p], Sum(Steps(s, s.processes[p]), Taken(l)))
    ensures l !in s.processes[p].phase.before ==> LiveSum(s2.orders, l) == LiveSum(s.orders, l)
    ensures l in s.processes[p].phase.before && l in s.converted ==> LiveSum(s2.orders, l) == s.converted[l]
  {
    var proc := s.processes[p];
    assert Steps(s, proc)[..proc.phase.done] == Steps(s, proc);
    if l !in proc.phase.before { UntouchedTakesNothing(s, proc, l); }
    if l in proc.phase.before && l in s.converted { assert LineFits(s, proc, l); }
    match proc.kind {
      case Create(takes) => SumSnoc(s.orders, Order(takes, true), Drawn(l));
      case Cancel(o) => SumUpdate(s.orders, o, s.orders[o].(live := false), Drawn(l));
    }
  }

  lemma {:induction false} CommitKeepsOthers(s: State, p: nat, s2: State, q: nat)
    requires Exclusive(s) && p < |s.processes| && q < |s.processes| && p != q && Commit(s, p, s2)
    requires RunningFits(s, s.processes[p]) && s.processes[q].phase.Running? && RunningFits(s, s.processes[q])
    ensures RunningFits(s2, s.processes[q])
  {
    var other := s.processes[q];
    assert Steps(s2, other) == Steps(s, other);
    if other.kind.Cancel? {
      var low, high := if p < q then p else q, if p < q then q else p;
      assert !(Cancels(s.processes[low], other.kind.order) && Cancels(s.processes[high], other.kind.order));
    }
    forall l | l in other.phase.before ensures l in s2.converted && LineFits(s2, other, l) {
      OnlyToucher(s, q, p, l);
      CommittedSum(s, p, s2, l);
      assert LineFits(s, other, l);
    }
  }

  lemma {:induction false} CommitKeepsInv(s: State, p: nat, s2: State)
    requires Inv(s) && p < |s.processes| && Commit(s, p, s2)
    ensures Inv(s2)
  {
    var proc := s.processes[p];
    assert RunningFits(s, proc);
    EndKeepsExclusive(s, p, Committed, s2);
    forall q | 0 <= q < |s2.processes| && s2.processes[q].phase.Running? ensures RunningFits(s2, s2.processes[q]) {
      CommitKeepsOthers(s, p, s2, q);
    }
    forall l | l in s2.converted
      ensures Untouched(s2, l) ==> s2.converted[l] == LiveSum(s2.orders, l)
      ensures LiveSum(s2.orders, l) <= s2.requested[l]
    {
      CommittedSum(s, p, s2, l);
      if Untouched(s2, l) && !Touches(proc, l) { UntouchedAfter(s, p, Committed, s2, l); }
    }
  }

  // Every step of every transaction keeps the invariant.
  lemma {:induction false} NextKeepsInv(s: State, s2: State)
    requires Inv(s) && Next(s, s2)
    ensures Inv(s2)
  {
    var p :| 0 <= p < |s.processes| && (Begin(s, p, s2) || Cas(s, p, s2) || Commit(s, p, s2) || Rollback(s, p, s2));
    if Begin(s, p, s2) {
      BeginKeepsInv(s, p, s2);
    } else if Cas(s, p, s2) {
      CasKeepsInv(s, p, s2);
    } else if Commit(s, p, s2) {
      CommitKeepsInv(s, p, s2);
    } else {
      RollbackKeepsInv(s, p, s2);
    }
  }

  // ---------------------------------------------------------------------------------------------
  // For every schedule
  // ---------------------------------------------------------------------------------------------

  ghost predicate Schedule(run: seq<State>) {
    run != [] && Initial(run[0]) && forall i :: 0 <= i < |run| - 1 ==> Next(run[i], run[i + 1])
  }

  // At every step of every schedule, no line is over-converted or over-returned, and a line no transaction is working
  // on has converted exactly what the committed live orders draw from it.
  lemma {:induction false} ConversionsStayWithin(run: seq<State>, i: nat)
    requires Schedule(run) && i < |run|
    ensures Inv(run[i])
    ensures forall l :: l in run[i].converted && l in run[i].requested ==>
      0 <= run[i].converted[l] <= run[i].requested[l]
    ensures forall l :: l in run[i].converted && Untouched(run[i], l) ==>
      run[i].converted[l] == LiveSum(run[i].orders, l)
  {
    if i == 0 {
      InitialInv(run[0]);
    } else {
      ConversionsStayWithin(run, i - 1);
      assert Next(run[i - 1], run[i - 1 + 1]);
      NextKeepsInv(run[i - 1], run[i]);
    }
  }

  // What an order still has to give back on a line is among what the line holds.
  lemma {:induction false} HoldsEnough(lines: set<nat>, takes: seq<Take>, n: nat)
    requires TakesOk(lines, takes) && n < |takes|
    ensures var l := takes[n].line; takes[n].quantity + Sum(takes[..n], Taken(l)) <= Sum(takes, Taken(l))
    ensures Sum(takes[..n], Taken(takes[n].line)) >= 0
  {
    var x := takes[n];
    assert takes == takes[..n] + [x] + takes[n + 1..];
    SumConcat(takes[..n] + [x], takes[n + 1..], Taken(x.line));
    SumSnoc(takes[..n], x, Taken(x.line));
    TakenNonNegative(lines, takes[n + 1..], x.line);
    TakenNonNegative(lines, takes[..n], x.line);
  }

  // The guard against returning more than was converted never fails, whatever else is going on.
  lemma {:induction false} GiveBackNeverFails(run: seq<State>, i: nat, p: nat)
    requires Schedule(run) && i < |run| && p < |run[i].processes| && Due(run[i], p) && run[i].processes[p].kind.Cancel?
    requires FreeFor(run[i], p, NextTake(run[i], p).line)
    ensures NextTake(run[i], p).line in run[i].converted && NextTake(run[i], p).line in run[i].requested
    ensures GuardHolds(run[i], run[i].processes[p], NextTake(run[i], p))
  {
    ConversionsStayWithin(run, i);
    var s := run[i];
    var proc, x := s.processes[p], NextTake(s, p);
    assert RunningFits(s, proc);
    LiveSumNonNegative(s.requested.Keys, s.orders, x.line);
    HoldsEnough(s.requested.Keys, s.orders[proc.kind.order].takes, proc.phase.done);
    if Touches(proc, x.line) {
      assert LineFits(s, proc, x.line);
    } else {
      FreeLine(s, p, x.line);
    }
  }
}
