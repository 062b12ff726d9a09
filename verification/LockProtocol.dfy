/**
 Many transactions at once: each claims its document row, locks its balance rows in canonical order, reads them, appends
 ledger rows, writes balances, and holds every lock until it commits or is rolled back.
 */
module LockProtocol {
  import opened Sums
  import opened Tables
  import opened Inventory

  // ---------------------------------------------------------------------------------------------
  // What is locked, in which order
  // ---------------------------------------------------------------------------------------------

  datatype Resource = ClaimRow(document: nat) | BalanceRow(key: Key)

  // Claim rows come before all balance rows, balance rows in the canonical order.
  predicate Below(a: Resource, b: Resource) {
    match (a, b)
    case (ClaimRow(c), ClaimRow(d)) => c < d
    case (ClaimRow(_), BalanceRow(_)) => true
    case (BalanceRow(_), ClaimRow(_)) => false
    case (BalanceRow(k), BalanceRow(l)) => Before(k, l)
  }

  // One key: its balance and its own ledger rows.
  datatype Slot = Slot(balance: Balance, rows: seq<Txn>)
  type Store = Key -> Slot

  // A transaction reads its keys under lock and then decides which rows to post, or gives up. The limit bounds the
  // rows.
  datatype Work = Work(claim: Option<nat>, keys: seq<Key>, limit: nat, plan: map<Key, Slot> -> Option<seq<Txn>>)

  ghost predicate WorkOk(w: Work) {
    forall view :: w.plan(view).Some? ==> |w.plan(view).value| <= w.limit && forall t :: t in w.plan(view).value ==>
      t.key in w.keys
  }

  function BalanceRows(keys: seq<Key>): (r: seq<Resource>)
    ensures |r| == |keys| && forall i :: 0 <= i < |r| ==> r[i] == BalanceRow(keys[i])
  {
    seq(|keys|, i requires 0 <= i < |keys| => BalanceRow(keys[i]))
  }

  // Everything the transaction locks, in the order it locks it.
  function Wanted(w: Work): (r: seq<Resource>)
    ensures forall i, j :: 0 <= i < j < |r| ==> Below(r[i], r[j])
    ensures forall k :: k in w.keys <==> BalanceRow(k) in r
    ensures forall d: nat :: w.claim == Some(d) <==> ClaimRow(d) in r
  {
    var balances := BalanceRows(SortKeys(w.keys));
    assert forall k :: BalanceRow(k) in balances <==> k in SortKeys(w.keys) by {
      forall k | k in SortKeys(w.keys) ensures BalanceRow(k) in balances {
        var i :| 0 <= i < |SortKeys(w.keys)| && SortKeys(w.keys)[i] == k;
        assert balances[i] == BalanceRow(k);
      }
    }
    match w.claim
    case Some(d) => [ClaimRow(d)] + balances
    case None => balances
  }

  // ---------------------------------------------------------------------------------------------
  // Steps
  // ---------------------------------------------------------------------------------------------

  // `before` is the before-image of the locked keys, which is also what the transaction read.
  datatype Phase = Locking(held: nat)
                 | Posting(before: map<Key, Slot>, rows: seq<Txn>, appended: nat, written: nat)
                 | Committed | Aborted
  datatype Process = Process(work: Work, phase: Phase)
  datatype State = State(store: Store, consumed: set<nat>, processes: seq<Process>, order: seq<nat>)

  function Held(p: Process): seq<Resource> {
    match p.phase
    case Locking(n) => if n <= |Wanted(p.work)| then Wanted(p.work)[..n] else Wanted(p.work)
    case Posting(_, _, _, _) => Wanted(p.work)
    case _ => []
  }

  predicate Holds(p: Process, r: Resource) {
    r in Held(p)
  }

  predicate Unfinished(p: Process) {
    p.phase.Locking? || p.phase.Posting?
  }

  function View(store: Store, keys: seq<Key>): map<Key, Slot> {
    map k | k in keys :: store(k)
  }

  function Put(store: Store, key: Key, slot: Slot): Store {
    (k: Key) => if k == key then slot else store(k)
  }

  function Restore(store: Store, before: map<Key, Slot>): Store {
    (k: Key) => if k in before then before[k] else store(k)
  }

  function Moved(s: State, t: nat, phase: Phase): seq<Process>
    requires t < |s.processes|
  {
    s.processes[t := s.processes[t].(phase := phase)]
  }

  predicate FreeFor(s: State, t: nat, r: Resource) {
    forall u :: 0 <= u < |s.processes| && u != t ==> !Holds(s.processes[u], r)
  }

  function ClaimOf(r: Resource): set<nat> {
    match r
    case ClaimRow(d) => {d}
    case BalanceRow(_) => {}
  }

  // The next lock; on a claim row it is the compare-and-set of the document status.
  ghost predicate Lock(s: State, t: nat, s2: State)
    requires t < |s.processes|
  {
    var p := s.processes[t];
    && p.phase.Locking? && p.phase.held < |Wanted(p.work)|
    && var r := Wanted(p.work)[p.phase.held];
       FreeFor(s, t, r) && ClaimOf(r) !! s.consumed
       && s2 == s.(processes := Moved(s, t, Locking(p.phase.held + 1)), consumed := s.consumed + ClaimOf(r))
  }

  // All locks held: read the balances and decide.
  ghost predicate Plan(s: State, t: nat, s2: State)
    requires t < |s.processes|
  {
    var p := s.processes[t];
    && p.phase.Locking? && p.phase.held == |Wanted(p.work)|
    && var view := View(s.store, p.work.keys);
       p.work.plan(view).Some? && s2 == s.(processes := Moved(s, t, Posting(view, p.work.plan(view).value, 0, 0)))
  }

  ghost predicate Append(s: State, t: nat, s2: State)
    requires t < |s.processes|
  {
    var p := s.processes[t];
    && p.phase.Posting? && p.phase.appended < |p.phase.rows|
    && var row := p.phase.rows[p.phase.appended];
       var slot := s.store(row.key);
       s2 == s.(store := Put(s.store, row.key, slot.(rows := slot.rows + [row])),
                processes := Moved(s, t, p.phase.(appended := p.phase.appended + 1)))
  }

  ghost predicate Write(s: State, t: nat, s2: State)
    requires t < |s.processes|
  {
    var p := s.processes[t];
    && p.phase.Posting? && p.phase.written < |SortKeys(p.work.keys)|
    && var key := SortKeys(p.work.keys)[p.phase.written];
       key in p.phase.before
       && s2 == s.(store := Put(s.store, key, s.store(key).(balance := After(p.phase.before[key].balance, p.phase.rows,
                                                                             key))),
                   processes := Moved(s, t, p.phase.(written := p.phase.written + 1)))
  }

  ghost predicate Commit(s: State, t: nat, s2: State)
    requires t < |s.processes|
  {
    var p := s.processes[t];
    && p.phase.Posting? && p.phase.appended == |p.phase.rows| && p.phase.written == |SortKeys(p.work.keys)|
    && s2 == s.(processes := Moved(s, t, Committed), order := s.order + [t])
  }

  function ClaimsHeld(p: Process): set<nat> {
    match p.work.claim
    case Some(d) => if Holds(p, ClaimRow(d)) then {d} else {}
    case None => {}
  }

  // Rollback, at any point: before-images come back, the claim is released.
  ghost predicate Abort(s: State, t: nat, s2: State)
    requires t < |s.processes|
  {
    var p := s.processes[t];
    && Unfinished(p)
    && s2 == s.(processes := Moved(s, t, Aborted), consumed := s.consumed - ClaimsHeld(p),
                store := if p.phase.Posting? then Restore(s.store, p.phase.before) else s.store)
  }

  ghost predicate StepOf(s: State, t: nat, s2: State) {
    && t < |s.processes|
    && (Lock(s, t, s2) || Plan(s, t, s2) || Append(s, t, s2) || Write(s, t, s2) || Commit(s, t, s2) || Abort(s, t, s2))
  }

  ghost predicate Next(s: State, s2: State) {
    exists t :: StepOf(s, t, s2)
  }

  ghost predicate Initial(s: State) {
    && s.consumed == {} && s.order == []
    && (forall t :: 0 <= t < |s.processes| ==> s.processes[t].phase == Locking(0) && WorkOk(s.processes[t].work))
  }

  // ---------------------------------------------------------------------------------------------
  // The sequential run
  // ---------------------------------------------------------------------------------------------

  function RowsOn(rows: seq<Txn>, key: Key): seq<Txn> {
    if rows == [] then [] else
      var init := RowsOn(rows[..|rows| - 1], key);
      if rows[|rows| - 1].key == key then init + [rows[|rows| - 1]] else init
  }

  function WithPosting(slot: Slot, rows: seq<Txn>, key: Key): Slot {
    Slot(After(slot.balance, rows, key), slot.rows + RowsOn(rows, key))
  }

  // One transaction after the other, each on what the previous one left.
  function Serial(store: Store, works: seq<Work>): Store {
    if works == [] then store else
      var before, w := Serial(store, works[..|works| - 1]), works[|works| - 1];
      match w.plan(View(before, w.keys))
      case Some(rows) => (k: Key) => WithPosting(before(k), rows, k)
      case None => before
  }

  function WorksOf(s: State): seq<Work>
    requires forall i :: 0 <= i < |s.order| ==> s.order[i] < |s.processes|
  {
    seq(|s.order|, i requires 0 <= i < |s.order| => s.processes[s.order[i]].work)
  }

  // ---------------------------------------------------------------------------------------------
  // What every interleaving keeps
  // ---------------------------------------------------------------------------------------------

  ghost predicate OrderFits(s: State) {
    && (forall i :: 0 <= i < |s.order| ==> s.order[i] < |s.processes| && s.processes[s.order[i]].phase == Committed)
    && (forall i, j :: 0 <= i < j < |s.order| ==> s.order[i] != s.order[j])
    && (forall t :: 0 <= t < |s.processes| && s.processes[t].phase == Committed ==> t in s.order)
  }

  // No two transactions hold the same row.
  ghost predicate Exclusive(s: State) {
    forall t, u, r :: 0 <= t < u < |s.processes| ==> !(Holds(s.processes[t], r) && Holds(s.processes[u], r))
  }

  // How far a posting has got on one key.
  function Progress(slot: Slot, rows: seq<Txn>, appended: nat, written: seq<Key>, key: Key): Slot
    requires appended <= |rows|
  {
    Slot(if key in written then After(slot.balance, rows, key) else slot.balance,
         slot.rows + RowsOn(rows[..appended], key))
  }

  ghost predicate PostingFits(store: Store, base: Store, p: Process)
    requires p.phase.Posting?
  {
    var keys := p.work.keys;
    && p.phase.before == View(base, keys) && p.work.plan(p.phase.before) == Some(p.phase.rows)
    && p.phase.appended <= |p.phase.rows| && p.phase.written <= |SortKeys(keys)|
    && (forall k :: k in keys ==>
          store(k) == Progress(base(k), p.phase.rows, p.phase.appended, SortKeys(keys)[..p.phase.written], k))
  }

  ghost predicate ProcessFits(store: Store, base: Store, p: Process) {
    && WorkOk(p.work)
    && (p.phase.Locking? ==> p.phase.held <= |Wanted(p.work)|)
    && (p.phase.Posting? ==> PostingFits(store, base, p))
  }

  predicate Busy(p: Process, key: Key) {
    p.phase.Posting? && key in p.work.keys
  }

  predicate Quiet(s: State, key: Key) {
    forall t :: 0 <= t < |s.processes| ==> !Busy(s.processes[t], key)
  }

  // Outside the keys being posted, the store is what the committed transactions left, one after the other.
  ghost predicate StoreFits(s: State, base: Store) {
    && (forall t :: 0 <= t < |s.processes| ==> ProcessFits(s.store, base, s.processes[t]))
    && (forall k :: Quiet(s, k) ==> s.store(k) == base(k))
  }

  predicate Claims(p: Process, d: nat) {
    p.work.claim == Some(d) && (p.phase == Committed || Holds(p, ClaimRow(d)))
  }

  // A document is claimed by at most one transaction that did not fail.
  ghost predicate ClaimsFit(s: State) {
    && (forall t, d :: 0 <= t < |s.processes| && Claims(s.processes[t], d) ==> d in s.consumed)
    && (forall t, u, d :: 0 <= t < u < |s.processes| ==> !(Claims(s.processes[t], d) && Claims(s.processes[u], d)))
  }

  ghost predicate Inv(s: State, init: Store) {
    OrderFits(s) && Exclusive(s) && ClaimsFit(s) && StoreFits(s, Serial(init, WorksOf(s)))
  }

  lemma {:induction false} InitialInv(s: State)
    requires Initial(s)
    ensures Inv(s, s.store)
  {
    assert WorksOf(s) == [];
  }

  // ---------------------------------------------------------------------------------------------
  // Each part of it, for any step that changes one process
  // ---------------------------------------------------------------------------------------------

  lemma {:induction false} OrderKept(s: State, t: nat, phase: Phase, s2: State)
    requires OrderFits(s) && t < |s.processes| && s.processes[t].phase != Committed && phase != Committed
    requires s2.processes == Moved(s, t, phase) && s2.order == s.order
    ensures OrderFits(s2) && WorksOf(s2) == WorksOf(s)
  {
    forall u | 0 <= u < |s2.processes| && s2.processes[u].phase == Committed ensures u in s2.order {
      assert s.processes[u].phase == Committed;
    }
    assert WorksOf(s2) == WorksOf(s);
  }

  lemma {:induction false} ExclusiveKept(s: State, t: nat, phase: Phase, s2: State)
    requires Exclusive(s) && t < |s.processes| && s2.processes == Moved(s, t, phase)
    requires forall r :: Holds(s2.processes[t], r) ==> Holds(s.processes[t], r) || FreeFor(s, t, r)
    ensures Exclusive(s2)
  {
    forall u, v, r | 0 <= u < v < |s2.processes| ensures !(Holds(s2.processes[u], r) && Holds(s2.processes[v], r)) {
      assert !(Holds(s.processes[u], r) && Holds(s.processes[v], r));
    }
  }

  lemma {:induction false} ClaimsKept(s: State, t: nat, phase: Phase, s2: State)
    requires ClaimsFit(s) && t < |s.processes| && s2.processes == Moved(s, t, phase)
    requires forall d: nat :: Claims(s2.processes[t], d) ==>
      d in s2.consumed && (Claims(s.processes[t], d) || d !in s.consumed)
    requires forall d: nat :: d in s.consumed ==> d in s2.consumed || Claims(s.processes[t], d)
    ensures ClaimsFit(s2)
  {
    forall u, d: nat | 0 <= u < |s2.processes| && Claims(s2.processes[u], d) ensures d in s2.consumed {
      if u != t {
        assert Claims(s.processes[u], d);
        var low, high := if u < t then u else t, if u < t then t else u;
        assert !(Claims(s.processes[low], d) && Claims(s.processes[high], d));
      }
    }
    forall u, v, d: nat | 0 <= u < v < |s2.processes|
      ensures !(Claims(s2.processes[u], d) && Claims(s2.processes[v], d))
    {
      assert !(Claims(s.processes[u], d) && Claims(s.processes[v], d));
    }
  }

  // A step that leaves the other processes' keys alone.
  lemma {:induction false} OthersKept(s: State, t: nat, phase: Phase, s2: State, base: Store)
    requires StoreFits(s, base) && t < |s.processes| && s2.processes == Moved(s, t, phase)
    requires ProcessFits(s2.store, base, s2.processes[t])
    requires forall u, k :: 0 <= u < |s.processes| && u != t && Busy(s.processes[u], k) ==> s2.store(k) == s.store(k)
    requires forall k :: !Busy(s2.processes[t], k) ==>
      s2.store(k) == if Busy(s.processes[t], k) then base(k) else s.store(k)
    ensures StoreFits(s2, base)
  {
    forall u | 0 <= u < |s2.processes| ensures ProcessFits(s2.store, base, s2.processes[u]) {
      if u != t {
        assert ProcessFits(s.store, base, s.processes[u]);
        forall k | s.processes[u].phase.Posting? && k in s.processes[u].work.keys ensures s2.store(k) == s.store(k) {
          assert Busy(s.processes[u], k);
        }
      }
    }
    forall k | Quiet(s2, k) ensures s2.store(k) == base(k) {
      assert !Busy(s2.processes[t], k);
      if !Busy(s.processes[t], k) {
        forall u | 0 <= u < |s.processes| ensures !Busy(s.processes[u], k) { assert !Busy(s2.processes[u], k); }
      }
    }
  }

  // ---------------------------------------------------------------------------------------------
  // Every step keeps the invariant
  // ---------------------------------------------------------------------------------------------

  lemma {:induction false} HeldGrows(p: Process, n: nat)
    requires p.phase == Locking(n) && n < |Wanted(p.work)|
    ensures Held(p.(phase := Locking(n + 1))) == Held(p) + [Wanted(p.work)[n]]
  {
    TakeNext(Wanted(p.work), n);
  }

  lemma {:induction false} LockKeepsClaims(s: State, t: nat, s2: State)
    requires ClaimsFit(s) && t < |s.processes| && Lock(s, t, s2)
    ensures ClaimsFit(s2)
  {
    var p := s.processes[t];
    HeldGrows(p, p.phase.held);
    ClaimsKept(s, t, Locking(p.phase.held + 1), s2);
  }

  lemma {:induction false} LockKeepsInv(s: State, t: nat, s2: State, init: Store)
    requires Inv(s, init) && t < |s.processes| && Lock(s, t, s2)
    ensures Inv(s2, init)
  {
    var p := s.processes[t];
    HeldGrows(p, p.phase.held);
    OrderKept(s, t, Locking(p.phase.held + 1), s2);
    ExclusiveKept(s, t, Locking(p.phase.held + 1), s2);
    LockKeepsClaims(s, t, s2);
    assert ProcessFits(s.store, Serial(init, WorksOf(s)), p);
    OthersKept(s, t, Locking(p.phase.held + 1), s2, Serial(init, WorksOf(s)));
  }

  lemma {:induction false} AllHeld(p: Process)
    requires p.phase == Locking(|Wanted(p.work)|) || p.phase.Posting?
    ensures forall r :: Holds(p, r) <==> r in Wanted(p.work)
  {
    assert Wanted(p.work)[..|Wanted(p.work)|] == Wanted(p.work);
  }

  // A process that holds all its rows is alone on its keys.
  lemma {:induction false} AloneOnKeys(s: State, t: nat, k: Key)
    requires Exclusive(s) && t < |s.processes| && k in s.processes[t].work.keys
    requires s.processes[t].phase == Locking(|Wanted(s.processes[t].work)|) || s.processes[t].phase.Posting?
    ensures forall u :: 0 <= u < |s.processes| && u != t ==> !Busy(s.processes[u], k)
  {
    AllHeld(s.processes[t]);
    assert Holds(s.processes[t], BalanceRow(k));
    forall u | 0 <= u < |s.processes| && u != t ensures !Busy(s.processes[u], k) {
      assert Busy(s.processes[u], k) ==> Holds(s.processes[u], BalanceRow(k));
      var low, high := if u < t then u else t, if u < t then t else u;
      assert !(Holds(s.processes[low], BalanceRow(k)) && Holds(s.processes[high], BalanceRow(k)));
    }
  }

  // What a transaction reads under its locks is what the committed ones left.
  lemma {:induction false} ReadsCommitted(s: State, t: nat, base: Store)
    requires Exclusive(s) && StoreFits(s, base) && t < |s.processes|
    requires s.processes[t].phase == Locking(|Wanted(s.processes[t].work)|)
    ensures View(s.store, s.processes[t].work.keys) == View(base, s.processes[t].work.keys)
    ensures forall k :: k in s.processes[t].work.keys ==> s.store(k) == base(k)
  {
    forall k | k in s.processes[t].work.keys ensures s.store(k) == base(k) {
      AloneOnKeys(s, t, k);
      assert forall u :: 0 <= u < |s.processes| ==> !Busy(s.processes[u], k);
    }
  }

  lemma {:induction false} PlanKeepsInv(s: State, t: nat, s2: State, init: Store)
    requires Inv(s, init) && t < |s.processes| && Plan(s, t, s2)
    ensures Inv(s2, init)
  {
    var p, base := s.processes[t], Serial(init, WorksOf(s));
    var phase := s2.processes[t].phase;
    OrderKept(s, t, phase, s2);
    AllHeld(p);
    ExclusiveKept(s, t, phase, s2);
    ClaimsKept(s, t, phase, s2);
    ReadsCommitted(s, t, base);
    assert phase.rows[..0] == [] && SortKeys(p.work.keys)[..0] == [];
    assert ProcessFits(s.store, base, p);
    assert PostingFits(s2.store, base, s2.processes[t]);
    OthersKept(s, t, phase, s2, base);
  }

  lemma {:induction false} RowsOnNext(rows: seq<Txn>, n: nat, k: Key)
    requires n < |rows|
    ensures RowsOn(rows[..n + 1], k) == RowsOn(rows[..n], k) + if rows[n].key == k then [rows[n]] else []
  {
    assert rows[..n + 1][..n] == rows[..n];
  }

  lemma {:induction false} AppendProgresses(store: Store, base: Store, p: Process)
    requires p.phase.Posting? && PostingFits(store, base, p) && p.phase.appended < |p.phase.rows|
    ensures var row := p.phase.rows[p.phase.appended];
            var store2 := Put(store, row.key, store(row.key).(rows := store(row.key).rows + [row]));
            PostingFits(store2, base, p.(phase := p.phase.(appended := p.phase.appended + 1)))
  {
    forall k | k in p.work.keys ensures RowsOn(p.phase.rows[..p.phase.appended + 1], k)
      == RowsOn(p.phase.rows[..p.phase.appended], k) +
          if p.phase.rows[p.phase.appended].key == k then [p.phase.rows[p.phase.appended]] else []
    {
      RowsOnNext(p.phase.rows, p.phase.appended, k);
    }
  }

  lemma {:induction false} WriteProgresses(store: Store, base: Store, p: Process, key: Key)
    requires p.phase.Posting? && PostingFits(store, base, p) && p.phase.written < |SortKeys(p.work.keys)|
    requires key == SortKeys(p.work.keys)[p.phase.written] && key in p.phase.before
    ensures var store2 := Put(store, key, store(key).(balance := After(p.phase.before[key].balance, p.phase.rows,
                                                                       key)));
            PostingFits(store2, base, p.(phase := p.phase.(written := p.phase.written + 1)))
  {
    TakeNext(SortKeys(p.work.keys), p.phase.written);
  }

  lemma {:induction false} AppendKeepsInv(s: State, t: nat, s2: State, init: Store)
    requires Inv(s, init) && t < |s.processes| && Append(s, t, s2)
    ensures Inv(s2, init)
  {
    var p, base := s.processes[t], Serial(init, WorksOf(s));
    var phase, row := s2.processes[t].phase, p.phase.rows[p.phase.appended];
    OrderKept(s, t, phase, s2);
    ExclusiveKept(s, t, phase, s2);
    ClaimsKept(s, t, phase, s2);
    assert ProcessFits(s.store, base, p) && row in p.phase.rows;
    AloneOnKeys(s, t, row.key);
    AppendProgresses(s.store, base, p);
    OthersKept(s, t, phase, s2, base);
  }

  lemma {:induction false} WriteKeepsInv(s: State, t: nat, s2: State, init: Store)
    requires Inv(s, init) && t < |s.processes| && Write(s, t, s2)
    ensures Inv(s2, init)
  {
    var p, base := s.processes[t], Serial(init, WorksOf(s));
    var phase, key := s2.processes[t].phase, SortKeys(p.work.keys)[p.phase.written];
    OrderKept(s, t, phase, s2);
    ExclusiveKept(s, t, phase, s2);
    ClaimsKept(s, t, phase, s2);
    assert ProcessFits(s.store, base, p);
    AloneOnKeys(s, t, key);
    WriteProgresses(s.store, base, p, key);
    OthersKept(s, t, phase, s2, base);
  }

  lemma {:induction false} AbortKeepsInv(s: State, t: nat, s2: State, init: Store)
    requires Inv(s, init) && t < |s.processes| && Abort(s, t, s2)
    ensures Inv(s2, init)
  {
    var p, base := s.processes[t], Serial(init, WorksOf(s));
    OrderKept(s, t, Aborted, s2);
    ExclusiveKept(s, t, Aborted, s2);
    ClaimsKept(s, t, Aborted, s2);
    assert ProcessFits(s.store, base, p);
    forall u, k | 0 <= u < |s.processes| && u != t && Busy(s.processes[u], k) ensures s2.store(k) == s.store(k) {
      if Busy(p, k) { AloneOnKeys(s, t, k); }
    }
    OthersKept(s, t, Aborted, s2, base);
  }

  // ---------------------------------------------------------------------------------------------
  // Committing appends the transaction to the sequential run
  // ---------------------------------------------------------------------------------------------

  lemma {:induction false} CommitKeepsOrder(s: State, t: nat, s2: State)
    requires OrderFits(s) && t < |s.processes| && Commit(s, t, s2)
    ensures OrderFits(s2) && WorksOf(s2) == WorksOf(s) + [s.processes[t].work]
  {
    assert t !in s.order;
    forall i | 0 <= i < |s2.order|
      ensures s2.order[i] < |s2.processes| && s2.processes[s2.order[i]].phase == Committed
    {
    }
    forall u | 0 <= u < |s2.processes| && s2.processes[u].phase == Committed ensures u in s2.order {
      assert u == t || u in s.order;
      assert s2.order[|s.order|] == t;
      if u != t { var i :| 0 <= i < |s.order| && s.order[i] == u; assert s2.order[i] == u; }
    }
    assert WorksOf(s2) == WorksOf(s) + [s.processes[t].work];
  }

  lemma {:induction false} SerialNext(store: Store, works: seq<Work>, w: Work, rows: seq<Txn>)
    requires w.plan(View(Serial(store, works), w.keys)) == Some(rows)
    ensures forall k :: Serial(store, works + [w])(k) == WithPosting(Serial(store, works)(k), rows, k)
  {
    assert (works + [w])[..|works|] == works;
  }

  lemma {:induction false} NoRowsOn(rows: seq<Txn>, k: Key)
    requires forall t :: t in rows ==> t.key != k
    ensures RowsOn(rows, k) == []
  {
    if rows != [] { NoRowsOn(rows[..|rows| - 1], k); }
  }

  lemma {:induction false} PostedElsewhere(slot: Slot, rows: seq<Txn>, k: Key)
    requires k !in KeysOf(rows)
    ensures WithPosting(slot, rows, k) == slot
  {
    forall t | t in rows ensures t.key != k { assert t.key in KeysOf(rows); }
    NoRowsOn(rows, k);
  }

  // The finished posting is exactly the next step of the sequential run.
  lemma {:induction false} FinishedIsPosted(s: State, t: nat, base: Store, base2: Store)
    requires StoreFits(s, base) && t < |s.processes| && s.processes[t].phase.Posting?
    requires var p := s.processes[t]; p.phase.appended == |p.phase.rows| && p.phase.written == |SortKeys(p.work.keys)|
    requires forall k :: base2(k) == WithPosting(base(k), s.processes[t].phase.rows, k)
    ensures forall k :: k in s.processes[t].work.keys ==> s.store(k) == base2(k)
    ensures forall k :: k !in s.processes[t].work.keys ==> base2(k) == base(k)
  {
    var p := s.processes[t];
    assert ProcessFits(s.store, base, p);
    assert p.phase.rows[..|p.phase.rows|] == p.phase.rows;
    assert SortKeys(p.work.keys)[..|SortKeys(p.work.keys)|] == SortKeys(p.work.keys);
    forall k | k !in p.work.keys ensures base2(k) == base(k) { PostedElsewhere(base(k), p.phase.rows, k); }
  }

  lemma {:induction false} SameView(a: Store, b: Store, keys: seq<Key>)
    requires forall k :: k in keys ==> a(k) == b(k)
    ensures View(a, keys) == View(b, keys)
  {
  }

  lemma {:induction false} CommitKeepsStore(s: State, t: nat, s2: State, base: Store, base2: Store)
    requires Exclusive(s) && StoreFits(s, base) && t < |s.processes| && Commit(s, t, s2)
    requires forall k :: k in s.processes[t].work.keys ==> s.store(k) == base2(k)
    requires forall k :: k !in s.processes[t].work.keys ==> base2(k) == base(k)
    ensures StoreFits(s2, base2)
  {
    var p := s.processes[t];
    forall u | 0 <= u < |s2.processes| ensures ProcessFits(s2.store, base2, s2.processes[u]) {
      var q := s.processes[u];
      assert ProcessFits(s.store, base, q);
      if u != t && q.phase.Posting? {
        forall k | k in q.work.keys ensures base2(k) == base(k) {
          if k in p.work.keys { AloneOnKeys(s, t, k); assert Busy(q, k); }
        }
        SameView(base2, base, q.work.keys);
      }
    }
    forall k | Quiet(s2, k) ensures s2.store(k) == base2(k) {
      if k !in p.work.keys {
        forall u | 0 <= u < |s.processes| ensures !Busy(s.processes[u], k) { assert !Busy(s2.processes[u], k); }
      }
    }
  }

  lemma {:induction false} CommitKeepsInv(s: State, t: nat, s2: State, init: Store)
    requires Inv(s, init) && t < |s.processes| && Commit(s, t, s2)
    ensures Inv(s2, init)
  {
    var p, base := s.processes[t], Serial(init, WorksOf(s));
    CommitKeepsOrder(s, t, s2);
    ExclusiveKept(s, t, Committed, s2);
    AllHeld(p);
    ClaimsKept(s, t, Committed, s2);
    assert ProcessFits(s.store, base, p);
    SerialNext(init, WorksOf(s), p.work, p.phase.rows);
    FinishedIsPosted(s, t, base, Serial(init, WorksOf(s2)));
    CommitKeepsStore(s, t, s2, base, Serial(init, WorksOf(s2)));
  }

  // Locking, reading, appending, writing, committing and rolling back, in any interleaving, keep the invariant.
  lemma {:induction false} NextKeepsInv(s: State, s2: State, init: Store)
    requires Inv(s, init) && Next(s, s2)
    ensures Inv(s2, init)
  {
    var t :| StepOf(s, t, s2);
    if Lock(s, t, s2) {
      LockKeepsInv(s, t, s2, init);
    } else if Plan(s, t, s2) {
      PlanKeepsInv(s, t, s2, init);
    } else if Append(s, t, s2) {
      AppendKeepsInv(s, t, s2, init);
    } else if Write(s, t, s2) {
      WriteKeepsInv(s, t, s2, init);
    } else if Commit(s, t, s2) {
      CommitKeepsInv(s, t, s2, init);
    } else {
      AbortKeepsInv(s, t, s2, init);
    }
  }

  // ---------------------------------------------------------------------------------------------
  // Serializability, for every schedule
  // ---------------------------------------------------------------------------------------------

  ghost predicate Schedule(run: seq<State>) {
    run != [] && Initial(run[0]) && forall i :: 0 <= i < |run| - 1 ==> Next(run[i], run[i + 1])
  }

  lemma {:induction false} ScheduleKeepsInv(run: seq<State>, i: nat)
    requires Schedule(run) && i < |run|
    ensures Inv(run[i], run[0].store)
  {
    if i == 0 {
      InitialInv(run[0]);
    } else {
      ScheduleKeepsInv(run, i - 1);
      assert Next(run[i - 1], run[i - 1 + 1]);
      NextKeepsInv(run[i - 1], run[i], run[0].store);
    }
  }

  // At any moment of any schedule, every key that is not being posted has exactly the balance and the ledger rows,
  // with their balance_after, that the committed transactions leave when they run one after the other.
  lemma {:induction false} Serializable(run: seq<State>, i: nat)
    requires Schedule(run) && i < |run|
    ensures OrderFits(run[i])
    ensures forall k :: Quiet(run[i], k) ==> run[i].store(k) == Serial(run[0].store, WorksOf(run[i]))(k)
  {
    ScheduleKeepsInv(run, i);
  }

  // No document is claimed by two committed transactions.
  lemma {:induction false} ClaimedOnce(run: seq<State>, i: nat, a: nat, b: nat)
    requires Schedule(run) && i < |run| && a < b < |run[i].order|
    ensures OrderFits(run[i])
    ensures var works := WorksOf(run[i]); works[a].claim.Some? ==> works[a].claim != works[b].claim
  {
    ScheduleKeepsInv(run, i);
    var s := run[i];
    var t, u := s.order[a], s.order[b];
    assert s.processes[t].phase == Committed && s.processes[u].phase == Committed;
    if s.processes[t].work.claim.Some? {
      var d := s.processes[t].work.claim.value;
      assert Claims(s.processes[t], d);
      assert !(Claims(s.processes[if t < u then t else u], d) && Claims(s.processes[if t < u then u else t], d));
    }
  }

  // ---------------------------------------------------------------------------------------------
  // No deadlock in this phase
  // ---------------------------------------------------------------------------------------------

  predicate WantsMore(p: Process) {
    p.phase.Locking? && p.phase.held < |Wanted(p.work)|
  }

  function NextWanted(p: Process): Resource
    requires WantsMore(p)
  {
    Wanted(p.work)[p.phase.held]
  }

  predicate Waits(s: State, t: nat, u: nat) {
    && t < |s.processes| && u < |s.processes| && t != u
    && WantsMore(s.processes[t]) && Holds(s.processes[u], NextWanted(s.processes[t]))
  }

  // Whoever holds what another waits for can itself only wait for something further on.
  lemma {:induction false} WaitsAscend(s: State, t: nat, u: nat)
    requires Waits(s, t, u) && WantsMore(s.processes[u])
    ensures Below(NextWanted(s.processes[t]), NextWanted(s.processes[u]))
  {
    var held, wanted := Held(s.processes[u]), Wanted(s.processes[u].work);
    var i :| 0 <= i < |held| && held[i] == NextWanted(s.processes[t]);
    assert wanted[i] == held[i];
  }

  ghost predicate WaitPath(s: State, path: seq<nat>) {
    |path| >= 2 && forall i :: 0 <= i < |path| - 1 ==> Waits(s, path[i], path[i + 1])
  }

  lemma {:induction false} WaitPathAscends(s: State, path: seq<nat>, i: nat)
    requires WaitPath(s, path) && 0 < i < |path| && path[i] < |s.processes| && WantsMore(s.processes[path[i]])
    ensures path[0] < |s.processes| && WantsMore(s.processes[path[0]])
    ensures Below(NextWanted(s.processes[path[0]]), NextWanted(s.processes[path[i]]))
  {
    assert Waits(s, path[i - 1], path[i - 1 + 1]);
    WaitsAscend(s, path[i - 1], path[i]);
    if i > 1 { WaitPathAscends(s, path, i - 1); }
  }

  // The wait-for graph is acyclic, whatever the transactions want.
  lemma {:induction false} NoWaitCycle(s: State, path: seq<nat>)
    requires WaitPath(s, path)
    ensures path[0] != path[|path| - 1]
  {
    assert Waits(s, path[0], path[0 + 1]);
    if path[0] == path[|path| - 1] { WaitPathAscends(s, path, |path| - 1); }
  }

  predicate Blocked(s: State, t: nat)
    requires t < |s.processes|
  {
    WantsMore(s.processes[t]) && !FreeFor(s, t, NextWanted(s.processes[t]))
  }

  lemma {:induction false} BelowTransitive(a: Resource, b: Resource, c: Resource)
    requires Below(a, b) && Below(b, c)
    ensures Below(a, c) && !Below(c, a)
  {
  }

  // Nobody among the first n processes waits further on than process `best`.
  predicate Furthest(s: State, n: nat, best: nat)
    requires n <= |s.processes|
  {
    && best < n && Blocked(s, best)
    && forall t :: 0 <= t < n && Blocked(s, t) ==> !Below(NextWanted(s.processes[best]), NextWanted(s.processes[t]))
  }

  lemma {:induction false} FurthestBlocked(s: State, n: nat, t: nat) returns (best: nat)
    requires t < n <= |s.processes| && Blocked(s, t)
    ensures Furthest(s, n, best)
  {
    best := t;
    for i := 0 to n
      invariant best < n && Blocked(s, best)
      invariant forall u :: 0 <= u < i && Blocked(s, u) ==>
        !Below(NextWanted(s.processes[best]), NextWanted(s.processes[u]))
    {
      if Blocked(s, i) && Below(NextWanted(s.processes[best]), NextWanted(s.processes[i])) {
        forall u | 0 <= u < i && Blocked(s, u) ensures !Below(NextWanted(s.processes[i]), NextWanted(s.processes[u])) {
          if Below(NextWanted(s.processes[i]), NextWanted(s.processes[u])) {
            BelowTransitive(NextWanted(s.processes[best]), NextWanted(s.processes[i]), NextWanted(s.processes[u]));
          }
        }
        best := i;
      }
    }
  }

  // Some unfinished transaction is never blocked.
  lemma {:induction false} SomeoneIsFree(s: State, t: nat) returns (free: nat)
    requires t < |s.processes| && Unfinished(s.processes[t])
    ensures free < |s.processes| && Unfinished(s.processes[free]) && !Blocked(s, free)
  {
    if !Blocked(s, t) { return t; }
    var best := FurthestBlocked(s, |s.processes|, t);
    var u :| 0 <= u < |s.processes| && u != best && Holds(s.processes[u], NextWanted(s.processes[best]));
    if Blocked(s, u) { WaitsAscend(s, best, u); }
    return u;
  }

  // A transaction gives up when its document was already claimed, or its plan refuses what it read.
  predicate GivesUp(s: State, t: nat)
    requires t < |s.processes|
  {
    var p := s.processes[t];
    && p.phase.Locking?
    && if p.phase.held < |Wanted(p.work)| then !(ClaimOf(NextWanted(p)) !! s.consumed)
       else p.work.plan(View(s.store, p.work.keys)).None?
  }

  ghost predicate OwnStep(s: State, t: nat, s2: State) {
    && t < |s.processes|
    && (Lock(s, t, s2) || Plan(s, t, s2) || Append(s, t, s2) || Write(s, t, s2) || Commit(s, t, s2)
        || (GivesUp(s, t) && Abort(s, t, s2)))
  }

  lemma {:induction false} LockingSteps(s: State, t: nat) returns (s2: State)
    requires t < |s.processes| && s.processes[t].phase.Locking? && !Blocked(s, t)
    requires s.processes[t].phase.held <= |Wanted(s.processes[t].work)|
    ensures OwnStep(s, t, s2)
  {
    var p := s.processes[t];
    if GivesUp(s, t) {
      s2 := s.(processes := Moved(s, t, Aborted), consumed := s.consumed - ClaimsHeld(p), store := s.store);
      assert Abort(s, t, s2);
    } else if p.phase.held < |Wanted(p.work)| {
      s2 := s.(processes := Moved(s, t, Locking(p.phase.held + 1)), consumed := s.consumed + ClaimOf(NextWanted(p)));
      assert Lock(s, t, s2);
    } else {
      var view := View(s.store, p.work.keys);
      s2 := s.(processes := Moved(s, t, Posting(view, p.work.plan(view).value, 0, 0)));
      assert Plan(s, t, s2);
    }
  }

  lemma {:induction false} PostingSteps(s: State, t: nat, base: Store) returns (s2: State)
    requires t < |s.processes| && s.processes[t].phase.Posting? && PostingFits(s.store, base, s.processes[t])
    ensures OwnStep(s, t, s2)
  {
    var p := s.processes[t];
    if p.phase.appended < |p.phase.rows| {
      var row := p.phase.rows[p.phase.appended];
      s2 := s.(store := Put(s.store, row.key, s.store(row.key).(rows := s.store(row.key).rows + [row])),
               processes := Moved(s, t, p.phase.(appended := p.phase.appended + 1)));
      assert Append(s, t, s2);
    } else if p.phase.written < |SortKeys(p.work.keys)| {
      var key := SortKeys(p.work.keys)[p.phase.written];
      assert key in SortKeys(p.work.keys);
      s2 := s.(store := Put(s.store, key, s.store(key).(balance := After(p.phase.before[key].balance, p.phase.rows,
                                                                         key))),
               processes := Moved(s, t, p.phase.(written := p.phase.written + 1)));
      assert Write(s, t, s2);
    } else {
      s2 := s.(processes := Moved(s, t, Committed), order := s.order + [t]);
      assert Commit(s, t, s2);
    }
  }

  // As long as anything is unfinished, someone can go on or gives up for its own reasons: nobody waits for ever.
  lemma {:induction false} AlwaysProgress(run: seq<State>, i: nat, t: nat) returns (u: nat, s2: State)
    requires Schedule(run) && i < |run| && t < |run[i].processes| && Unfinished(run[i].processes[t])
    ensures OwnStep(run[i], u, s2)
  {
    ScheduleKeepsInv(run, i);
    u := SomeoneIsFree(run[i], t);
    var base := Serial(run[0].store, WorksOf(run[i]));
    assert ProcessFits(run[i].store, base, run[i].processes[u]);
    if run[i].processes[u].phase.Locking? {
      s2 := LockingSteps(run[i], u);
    } else {
      s2 := PostingSteps(run[i], u, base);
    }
  }

  // ---------------------------------------------------------------------------------------------
  // Every schedule ends
  // ---------------------------------------------------------------------------------------------

  // Steps a process has left at most.
  function Remaining(): Process -> int {
    (p: Process) =>
      match p.phase
      case Locking(n) => |Wanted(p.work)| - n + p.work.limit + |SortKeys(p.work.keys)| + 2
      case Posting(_, rows, appended, written) => |rows| - appended + |SortKeys(p.work.keys)| - written + 1
      case _ => 0
  }

  function Measure(s: State): int {
    Sum(s.processes, Remaining())
  }

  lemma {:induction false} StepShrinks(s: State, t: nat, s2: State, base: Store)
    requires StepOf(s, t, s2) && ProcessFits(s.store, base, s.processes[t])
    ensures |s2.processes| == |s.processes| && s2.processes == s.processes[t := s2.processes[t]]
    ensures Remaining()(s2.processes[t]) < Remaining()(s.processes[t])
  {
  }

  lemma {:induction false} StepDecreases(s: State, t: nat, s2: State, base: Store)
    requires StepOf(s, t, s2) && ProcessFits(s.store, base, s.processes[t])
    ensures Measure(s2) < Measure(s)
  {
    StepShrinks(s, t, s2, base);
    SumUpdate(s.processes, t, s2.processes[t], Remaining());
  }

  lemma {:induction false} NextDecreases(s: State, s2: State, base: Store)
    requires forall t :: 0 <= t < |s.processes| ==> ProcessFits(s.store, base, s.processes[t])
    requires Next(s, s2)
    ensures Measure(s2) < Measure(s)
  {
    var t :| StepOf(s, t, s2);
    StepDecreases(s, t, s2, base);
  }

  lemma {:induction false} MeasureNonNegative(s: State, init: Store)
    requires Inv(s, init)
    ensures Measure(s) >= 0
  {
    forall p | p in s.processes ensures Remaining()(p) >= 0 {
      var t :| 0 <= t < |s.processes| && s.processes[t] == p;
      assert ProcessFits(s.store, Serial(init, WorksOf(s)), s.processes[t]);
    }
    SumNonNegative(s.processes, Remaining());
  }

  // A schedule is never longer than what its transactions have to do.
  lemma {:induction false} ScheduleBounded(run: seq<State>, i: nat)
    requires Schedule(run) && i < |run|
    ensures i <= Measure(run[0]) - Measure(run[i]) <= Measure(run[0])
  {
    ScheduleKeepsInv(run, i);
    MeasureNonNegative(run[i], run[0].store);
    if i > 0 {
      ScheduleBounded(run, i - 1);
      ScheduleKeepsInv(run, i - 1);
      assert Next(run[i - 1], run[i - 1 + 1]);
      NextDecreases(run[i - 1], run[i], Serial(run[0].store, WorksOf(run[i - 1])));
    }
  }
}
