/** Stock: balances locked in one canonical order, an append-only ledger, moving-average costing. */
module Inventory {
  import opened Sums
  import opened Money
  import opened Tables

  // ---------------------------------------------------------------------------------------------
  // The canonical lock order
  // ---------------------------------------------------------------------------------------------

  predicate Before(a: Key, b: Key) {
    a.warehouse < b.warehouse || (a.warehouse == b.warehouse && a.material < b.material)
  }

  predicate Ascending(keys: seq<Key>) {
    forall i, j :: 0 <= i < j < |keys| ==> Before(keys[i], keys[j])
  }

  function InsertKey(sorted: seq<Key>, key: Key): (r: seq<Key>)
    requires Ascending(sorted)
    ensures Ascending(r)
    ensures forall k :: k in r <==> k in sorted || k == key
  {
    if sorted == [] || Before(sorted[|sorted| - 1], key) then sorted + [key]
    else if sorted[|sorted| - 1] == key then sorted
    else
      var lower := InsertKey(sorted[..|sorted| - 1], key);
      BelowLast(sorted, key, lower);
      lower + [sorted[|sorted| - 1]]
  }

  lemma {:induction false} BelowLast(sorted: seq<Key>, key: Key, lower: seq<Key>)
    requires Ascending(sorted) && sorted != [] && Before(key, sorted[|sorted| - 1])
    requires forall k :: k in lower ==> k in sorted[..|sorted| - 1] || k == key
    ensures forall i :: 0 <= i < |lower| ==> Before(lower[i], sorted[|sorted| - 1])
  {
    forall i | 0 <= i < |lower| ensures Before(lower[i], sorted[|sorted| - 1]) {
      assert lower[i] in lower;
    }
  }

  // sorted(set(keys)): strictly ascending, with exactly the given keys.
  function SortKeys(keys: seq<Key>): (r: seq<Key>)
    ensures Ascending(r)
    ensures forall k :: k in r <==> k in keys
  {
    if keys == [] then [] else InsertKey(SortKeys(keys[..|keys| - 1]), keys[|keys| - 1])
  }

  lemma {:induction false} EmptyOrNot(keys: seq<Key>)
    ensures keys == [] || exists k :: k in keys
  {
    if keys != [] { assert keys[0] in keys; }
  }

  // The order does not depend on how the caller lists the keys, nor on repetitions.
  lemma {:induction false} AscendingUnique(a: seq<Key>, b: seq<Key>)
    requires Ascending(a) && Ascending(b)
    requires forall k :: k in a <==> k in b
    ensures a == b
  {
    EmptyOrNot(a);
    EmptyOrNot(b);
    if a != [] {
      var m, n := |a| - 1, |b| - 1;
      assert a[m] in b && b[n] in a;
      assert a[m] == b[n];
      forall k ensures k in a[..m] <==> k in b[..n] {
        assert k in a[..m] <==> k in a && k != a[m];
        assert k in b[..n] <==> k in b && k != b[n];
      }
      AscendingUnique(a[..m], b[..n]);
    }
  }

  lemma {:induction false} SortKeysCanonical(a: seq<Key>, b: seq<Key>)
    requires forall k :: k in a <==> k in b
    ensures SortKeys(a) == SortKeys(b)
  {
    AscendingUnique(SortKeys(a), SortKeys(b));
  }

  // ---------------------------------------------------------------------------------------------
  // Balances
  // ---------------------------------------------------------------------------------------------

  const NO_STOCK := Balance(0, 0, 0)

  function BalanceOf(balances: map<Key, Balance>, key: Key): Balance {
    if key in balances then balances[key] else NO_STOCK
  }

  // The upsert of lock_balance: a missing row is created empty.
  function Upsert(balances: map<Key, Balance>, keys: seq<Key>): (r: map<Key, Balance>)
    ensures r.Keys == balances.Keys + set k | k in keys
    ensures forall k :: k in r ==> r[k] == BalanceOf(balances, k)
  {
    map k | k in balances.Keys + (set k | k in keys) :: BalanceOf(balances, k)
  }

  method LockBalance(balances: map<Key, Balance>, key: Key) returns (locked: map<Key, Balance>)
    ensures locked == Upsert(balances, [key])
  {
    locked := balances;
    if key !in locked {
      locked := locked[key := NO_STOCK];
    }
  }

  // All locks in one pre-sorted pass.
  method LockBalances(balances: map<Key, Balance>,
          keys: seq<Key>) returns (ordered: seq<Key>, locked: map<Key, Balance>)
    ensures ordered == SortKeys(keys)
    ensures locked == Upsert(balances, keys)
  {
    ordered, locked := SortKeys(keys), balances;
    for i := 0 to |ordered|
      invariant locked == Upsert(balances, ordered[..i])
    {
      locked := LockBalance(locked, ordered[i]);
      UpsertTwice(balances, ordered[..i], [ordered[i]], ordered[..i + 1]);
    }
    assert ordered[..|ordered|] == ordered;
    UpsertTwice(balances, [], ordered, keys);
  }

  lemma {:induction false} UpsertTwice(balances: map<Key, Balance>, first: seq<Key>, second: seq<Key>, all: seq<Key>)
    requires forall k :: k in all <==> k in first || k in second
    ensures Upsert(Upsert(balances, first), second) == Upsert(balances, all)
  {
  }

  function NewAverage(total: int, quantity: int): (average: int)
    ensures total >= 0 ==> average >= 0
  {
    if quantity <= 0 then 0 else UnitCost(total, quantity)
  }

  // A balance moved by a signed quantity and amount.
  function Moved(b: Balance, quantity: int, amount: int): Balance {
    Balance(b.quantity + quantity, b.total + amount, NewAverage(b.total + amount, b.quantity + quantity))
  }

  function Inbound(b: Balance, quantity: int, amount: int): Result<Balance> {
    if quantity < 0 then Err(ValidationError)
    else if b.quantity + quantity < 0 || b.total + amount < 0 then Err(InventoryNegative)
    else Ok(Moved(b, quantity, amount))
  }

  function Outbound(b: Balance, quantity: int, amount: int): Result<Balance> {
    if quantity <= 0 then Err(ValidationError)
    else if b.quantity < quantity then Err(InventoryNegative)
    else if b.total < amount then Err(InventoryBalanceMismatch)
    else Ok(Moved(b, -quantity, -amount))
  }

  // Rounding the stored cents once more changes nothing, so quantity and value move by exactly what was given.
  method ApplyInbound(b: Balance, quantity: int, amount: int) returns (r: Result<Balance>)
    ensures r.Ok? <==> quantity >= 0 && b.quantity + quantity >= 0 && b.total + amount >= 0
    ensures r.Ok? ==> r.value.quantity == b.quantity + quantity && r.value.total == b.total + amount
    ensures r.Ok? ==> r.value.average == NewAverage(r.value.total, r.value.quantity) >= 0
    ensures r.Err? ==> r.error == if quantity < 0 then ValidationError else InventoryNegative
  {
    if quantity < 0 { return Err(ValidationError); }
    CentsStayCents(b.total + amount);
    var newQuantity := b.quantity + quantity;
    var newTotal := ToCents(b.total + amount, 1);
    if newQuantity < 0 || newTotal < 0 { return Err(InventoryNegative); }
    return Ok(Balance(newQuantity, newTotal, NewAverage(newTotal, newQuantity)));
  }

  // The amount given leaves with the quantity, whatever the average is by now.
  method ApplyOutbound(b: Balance, quantity: int, amount: int) returns (r: Result<Balance>)
    ensures r.Ok? <==> 0 < quantity <= b.quantity && amount <= b.total
    ensures r.Ok? ==> r.value.quantity == b.quantity - quantity && r.value.total == b.total - amount
    ensures r.Ok? ==> r.value.average == NewAverage(r.value.total, r.value.quantity) >= 0
    ensures r.Err? ==> r.error == if quantity <= 0 then ValidationError
                                  else if b.quantity < quantity then InventoryNegative else InventoryBalanceMismatch
  {
    if quantity <= 0 { return Err(ValidationError); }
    CentsStayCents(b.total - amount);
    var newQuantity := b.quantity - quantity;
    var newTotal := ToCents(b.total - amount, 1);
    if newQuantity < 0 { return Err(InventoryNegative); }
    if newTotal < 0 { return Err(InventoryBalanceMismatch); }
    return Ok(Balance(newQuantity, newTotal, NewAverage(newTotal, newQuantity)));
  }

  // ---------------------------------------------------------------------------------------------
  // Ledger
  // ---------------------------------------------------------------------------------------------

  predicate IsOutbound(kind: TxnType) {
    kind == PurchaseInReversal || kind == AdjustOut
  }

  // A row goes out with a negative quantity or in with a positive one, and its amount follows that sign.
  predicate Signed(t: Txn) {
    && (if IsOutbound(t.kind) then t.quantity < 0 && t.amount <= 0 else t.quantity > 0 && t.amount >= 0)
    && t.unitCost >= 0
  }

  method WriteTransaction(ledger: seq<Txn>, t: Txn) returns (r: Result<seq<Txn>>)
    ensures r == if Signed(t) then Ok(ledger + [t]) else Err(ValidationError)
  {
    if IsOutbound(t.kind) && t.quantity >= 0 { return Err(ValidationError); }
    if !IsOutbound(t.kind) && t.quantity <= 0 { return Err(ValidationError); }
    if t.unitCost < 0 { return Err(ValidationError); }
    if (t.quantity > 0 && t.amount < 0) || (t.quantity < 0 && t.amount > 0) { return Err(ValidationError); }
    return Ok(ledger + [t]);
  }

  function QuantityOn(key: Key): Txn -> int {
    (t: Txn) => if t.key == key then t.quantity else 0
  }

  function AmountOn(key: Key): Txn -> int {
    (t: Txn) => if t.key == key then t.amount else 0
  }

  function KeysOf(rows: seq<Txn>): set<Key> {
    set t | t in rows :: t.key
  }

  // MAX(id) of a key's rows; 0 stands for NULL.
  function LastRow(ledger: seq<Txn>, key: Key): (id: nat)
    ensures id <= |ledger|
    ensures id > 0 ==> ledger[id - 1].key == key
    ensures forall i :: id <= i < |ledger| ==> ledger[i].key != key
  {
    if ledger == [] then 0
    else if ledger[|ledger| - 1].key == key then |ledger|
    else LastRow(ledger[..|ledger| - 1], key)
  }

  // A balance after rows were posted together: it moves once, by the aggregate of its key's rows.
  function After(b: Balance, rows: seq<Txn>, key: Key): Balance {
    if key in KeysOf(rows) then Moved(b, Sum(rows, QuantityOn(key)), Sum(rows, AmountOn(key))) else b
  }

  function Post(balances: map<Key, Balance>, rows: seq<Txn>): (r: map<Key, Balance>)
    ensures r.Keys == balances.Keys + KeysOf(rows)
  {
    map k | k in balances.Keys + KeysOf(rows) :: After(BalanceOf(balances, k), rows, k)
  }

  lemma {:induction false} PostIs(balances: map<Key, Balance>, rows: seq<Txn>, posted: map<Key, Balance>)
    requires posted.Keys == balances.Keys + KeysOf(rows)
    requires forall k :: k in posted ==> posted[k] == After(BalanceOf(balances, k), rows, k)
    ensures posted == Post(balances, rows)
  {
  }

  lemma {:induction false} NoRowsNoSum(rows: seq<Txn>, key: Key)
    requires key !in KeysOf(rows)
    ensures Sum(rows, QuantityOn(key)) == 0 && Sum(rows, AmountOn(key)) == 0
  {
    forall t | t in rows ensures t.key != key { assert t.key in KeysOf(rows); }
    SumZero(rows, QuantityOn(key));
    SumZero(rows, AmountOn(key));
  }

  lemma {:induction false} KeysOfConcat(a: seq<Txn>, b: seq<Txn>)
    ensures KeysOf(a + b) == KeysOf(a) + KeysOf(b)
  {
    forall k ensures k in KeysOf(a + b) <==> k in KeysOf(a) + KeysOf(b) {
      if k in KeysOf(a + b) {
        var t :| t in a + b && t.key == k;
        assert t in a || t in b;
      }
      if k in KeysOf(a) { var t :| t in a && t.key == k; assert t in a + b; }
      if k in KeysOf(b) { var t :| t in b && t.key == k; assert t in a + b; }
    }
  }

  lemma {:induction false} AfterExactly(b: Balance, rows: seq<Txn>, key: Key)
    ensures After(b, rows, key).quantity == b.quantity + Sum(rows, QuantityOn(key))
    ensures After(b, rows, key).total == b.total + Sum(rows, AmountOn(key))
    ensures key in KeysOf(rows) ==>
      After(b, rows, key).average == NewAverage(After(b, rows, key).total, After(b, rows, key).quantity)
  {
    if key !in KeysOf(rows) { NoRowsNoSum(rows, key); }
  }

  lemma {:induction false} AfterInBatches(b: Balance, first: seq<Txn>, second: seq<Txn>, key: Key)
    ensures After(After(b, first, key), second, key) == After(b, first + second, key)
  {
    KeysOfConcat(first, second);
    SumConcat(first, second, QuantityOn(key));
    SumConcat(first, second, AmountOn(key));
    AfterExactly(b, first, key);
    AfterExactly(After(b, first, key), second, key);
    AfterExactly(b, first + second, key);
  }

  // One aggregated apply per key is the same as applying the rows batch by batch, down to line by line.
  lemma {:induction false} PostInBatches(balances: map<Key, Balance>, first: seq<Txn>, second: seq<Txn>)
    ensures Post(Post(balances, first), second) == Post(balances, first + second)
  {
    KeysOfConcat(first, second);
    forall k | k in balances.Keys + KeysOf(first) + KeysOf(second)
      ensures Post(Post(balances, first), second)[k] == Post(balances, first + second)[k]
    {
      AfterInBatches(BalanceOf(balances, k), first, second, k);
    }
  }

  // ---------------------------------------------------------------------------------------------
  // What every run keeps: the balance is a cache of the ledger, and the ledger replays
  // ---------------------------------------------------------------------------------------------

  predicate Agrees(ledger: seq<Txn>, key: Key, b: Balance) {
    && b.quantity == Sum(ledger, QuantityOn(key)) >= 0
    && b.total == Sum(ledger, AmountOn(key)) >= 0
    && b.average == NewAverage(b.total, b.quantity)
  }

  // A row's balance_after is what its key's rows sum to, up to and including that row.
  predicate RowReplays(ledger: seq<Txn>, i: nat)
    requires i < |ledger|
  {
    Signed(ledger[i]) && ledger[i].after == Sum(ledger[..i + 1], QuantityOn(ledger[i].key)) >= 0
  }

  predicate Replays(ledger: seq<Txn>) {
    forall i :: 0 <= i < |ledger| ==> RowReplays(ledger, i)
  }

  ghost predicate StockOk(ledger: seq<Txn>, balances: map<Key, Balance>) {
    && (forall k :: k in balances ==> Agrees(ledger, k, balances[k]))
    && (forall t :: t in ledger ==> t.key in balances)
    && Replays(ledger)
  }

  lemma {:induction false} NeverMoved(ledger: seq<Txn>, balances: map<Key, Balance>, key: Key)
    requires StockOk(ledger, balances)
    ensures Agrees(ledger, key, BalanceOf(balances, key))
  {
    if key !in balances { NoRowsNoSum(ledger, key); }
  }

  // New rows carry the running balance of their key.
  predicate RunsAt(balances: map<Key, Balance>, rows: seq<Txn>, i: nat)
    requires i < |rows|
  {
    rows[i].after == BalanceOf(balances, rows[i].key).quantity + Sum(rows[..i + 1], QuantityOn(rows[i].key))
  }

  predicate Running(balances: map<Key, Balance>, rows: seq<Txn>) {
    forall i :: 0 <= i < |rows| ==> RunsAt(balances, rows, i)
  }

  // No key goes below zero, in quantity or value.
  predicate Covered(balances: map<Key, Balance>, rows: seq<Txn>) {
    forall k :: k in KeysOf(rows) ==>
      && BalanceOf(balances, k).quantity + Sum(rows, QuantityOn(k)) >= 0
      && BalanceOf(balances, k).total + Sum(rows, AmountOn(k)) >= 0
  }

  predicate OneWay(rows: seq<Txn>) {
    (forall t :: t in rows ==> t.quantity >= 0) || (forall t :: t in rows ==> t.quantity <= 0)
  }

  // Rows that all go in the same direction never dip below the lower of start and end.
  lemma {:induction false} RunningStaysCovered(rows: seq<Txn>, key: Key, i: nat, start: int)
    requires i < |rows| && OneWay(rows)
    requires start >= 0 && start + Sum(rows, QuantityOn(key)) >= 0
    ensures start + Sum(rows[..i + 1], QuantityOn(key)) >= 0
  {
    var f := QuantityOn(key);
    assert rows == rows[..i + 1] + rows[i + 1..];
    SumConcat(rows[..i + 1], rows[i + 1..], f);
    if forall t :: t in rows ==> t.quantity >= 0 {
      SumNonNegative(rows[..i + 1], f);
    } else {
      var zero := (t: Txn) => 0;
      SumAtMost(rows[i + 1..], f, zero);
      SumZero(rows[i + 1..], zero);
    }
  }

  lemma {:induction false} PostKeepsAgreement(ledger: seq<Txn>, b: Balance, rows: seq<Txn>, key: Key)
    requires Agrees(ledger, key, b)
    requires key in KeysOf(rows) ==>
      b.quantity + Sum(rows, QuantityOn(key)) >= 0 && b.total + Sum(rows, AmountOn(key)) >= 0
    ensures Agrees(ledger + rows, key, After(b, rows, key))
  {
    AfterExactly(b, rows, key);
    SumConcat(ledger, rows, QuantityOn(key));
    SumConcat(ledger, rows, AmountOn(key));
    if key !in KeysOf(rows) { NoRowsNoSum(rows, key); }
  }

  lemma {:induction false} NewRowReplays(ledger: seq<Txn>, b: Balance, rows: seq<Txn>, j: nat)
    requires j < |rows| && OneWay(rows) && Signed(rows[j])
    requires Agrees(ledger, rows[j].key, b)
    requires b.quantity + Sum(rows, QuantityOn(rows[j].key)) >= 0
    requires rows[j].after == b.quantity + Sum(rows[..j + 1], QuantityOn(rows[j].key))
    ensures RowReplays(ledger + rows, |ledger| + j)
  {
    assert (ledger + rows)[..|ledger| + j + 1] == ledger + rows[..j + 1];
    SumConcat(ledger, rows[..j + 1], QuantityOn(rows[j].key));
    RunningStaysCovered(rows, rows[j].key, j, b.quantity);
  }

  lemma {:induction false} OldRowReplays(ledger: seq<Txn>, rows: seq<Txn>, i: nat)
    requires i < |ledger| && RowReplays(ledger, i)
    ensures RowReplays(ledger + rows, i)
  {
    assert (ledger + rows)[..i + 1] == ledger[..i + 1];
  }

  lemma {:induction false} PostKeepsReplays(ledger: seq<Txn>, balances: map<Key, Balance>, rows: seq<Txn>)
    requires StockOk(ledger, balances)
    requires Running(balances, rows) && Covered(balances, rows) && OneWay(rows)
    requires forall t :: t in rows ==> Signed(t)
    ensures Replays(ledger + rows)
  {
    forall i | 0 <= i < |ledger + rows| ensures RowReplays(ledger + rows, i) {
      if i < |ledger| {
        OldRowReplays(ledger, rows, i);
      } else {
        var j := i - |ledger|;
        assert RunsAt(balances, rows, j) && rows[j] in rows && rows[j].key in KeysOf(rows);
        NeverMoved(ledger, balances, rows[j].key);
        NewRowReplays(ledger, BalanceOf(balances, rows[j].key), rows, j);
      }
    }
  }

  lemma {:induction false} PostKeepsStock(ledger: seq<Txn>, balances: map<Key, Balance>, rows: seq<Txn>)
    requires StockOk(ledger, balances)
    requires Running(balances, rows) && Covered(balances, rows) && OneWay(rows)
    requires forall t :: t in rows ==> Signed(t)
    ensures StockOk(ledger + rows, Post(balances, rows))
  {
    var after := Post(balances, rows);
    forall k | k in after ensures Agrees(ledger + rows, k, after[k]) {
      NeverMoved(ledger, balances, k);
      PostKeepsAgreement(ledger, BalanceOf(balances, k), rows, k);
    }
    PostKeepsReplays(ledger, balances, rows);
    forall t | t in ledger + rows ensures t.key in after {
      if t in rows { assert t.key in KeysOf(rows); }
    }
  }

  // Nothing moved on a key since its last row was `mark`: the ledger still sums to the prefix up to that row.
  lemma {:induction false} QuietSince(ledger: seq<Txn>, key: Key, mark: nat)
    requires mark <= |ledger| && LastRow(ledger, key) <= mark
    ensures Sum(ledger, QuantityOn(key)) == Sum(ledger[..mark], QuantityOn(key))
    ensures Sum(ledger, AmountOn(key)) == Sum(ledger[..mark], AmountOn(key))
  {
    assert ledger == ledger[..mark] + ledger[mark..];
    SumConcat(ledger[..mark], ledger[mark..], QuantityOn(key));
    SumConcat(ledger[..mark], ledger[mark..], AmountOn(key));
    SumZero(ledger[mark..], QuantityOn(key));
    SumZero(ledger[mark..], AmountOn(key));
  }
}
