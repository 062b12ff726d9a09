/**
 Decimal arithmetic on scaled integers.

 Quantities, unit prices and average costs carry 4 decimals and are stored times 10^4; amounts carry
 2 decimals and are stored in cents. A quantity times a price therefore has 8 decimals, which is 10^6
 units per cent.
 */
module Money {
  import opened Sums

  const UNITS_PER_CENT := 1_000_000

  // ROUND_HALF_UP of n/d: the nearest integer, ties away from zero.
  function HalfUp(n: int, d: int): (r: int)
    requires d > 0
    ensures -d <= 2 * (n - r * d) <= d
    ensures 2 * (n - r * d) == d ==> n < 0
    ensures 2 * (n - r * d) == -d ==> n > 0
    ensures n >= 0 ==> r >= 0
    ensures n <= 0 ==> r <= 0
  {
    if n >= 0 then (2 * n + d) / (2 * d) else -((2 * -n + d) / (2 * d))
  }

  lemma {:induction false} ProductNonNegative(a: nat, b: nat)
    ensures a * b >= 0
  {
  }

  // Distinct multiples of d are at least d apart.
  lemma {:induction false} MultiplesApart(low: int, high: int, d: nat)
    requires low < high
    ensures high * d >= low * d + d
  {
    ProductNonNegative(high - low - 1, d);
    assert (high - low - 1) * d == high * d - low * d - d;
  }

  // Those bounds leave no choice, so they define the rounding.
  lemma {:induction false} HalfUpUnique(n: int, d: int, r: int)
    requires d > 0
    requires -d <= 2 * (n - r * d) <= d
    requires 2 * (n - r * d) == d ==> n < 0
    requires 2 * (n - r * d) == -d ==> n > 0
    ensures r == HalfUp(n, d)
  {
    var q := HalfUp(n, d);
    var a, b := r * d, q * d;
    assert -d <= a - b <= d;
    if q < r { MultiplesApart(q, r, d); }
    if r < q { MultiplesApart(r, q, d); }
  }

  // money(): a value with `unit` parts per cent, in cents.
  function ToCents(value: int, unit: int): int
    requires unit > 0
  {
    HalfUp(value, unit)
  }

  // Amounts already carry two decimals, so rounding them again changes nothing.
  lemma {:induction false} CentsStayCents(cents: int)
    ensures ToCents(cents, 1) == cents
  {
    HalfUpUnique(cents, 1, cents);
  }

  function LineAmount(quantity: int, price: int): (amount: int)
    ensures quantity >= 0 && price >= 0 ==> amount >= 0
  {
    assert quantity >= 0 && price >= 0 ==> quantity * price >= 0;
    ToCents(quantity * price, UNITS_PER_CENT)
  }

  // unit_cost(total / quantity) with 4 decimals.
  function UnitCost(total: int, quantity: int): (cost: int)
    requires quantity > 0
    ensures total >= 0 ==> cost >= 0
  {
    HalfUp(total * UNITS_PER_CENT, quantity)
  }

  // An amount is the product to the nearest cent, ties away from zero.
  lemma {:induction false} LineAmountRounds(quantity: int, price: int)
    ensures var rest := 2 * (quantity * price - LineAmount(quantity, price) * 1_000_000);
      && -1_000_000 <= rest <= 1_000_000
      && (rest == 1_000_000 ==> quantity * price < 0) && (rest == -1_000_000 ==> quantity * price > 0)
  {
  }

  // An average cost is the quotient to the nearest 10^-4, ties away from zero.
  lemma {:induction false} UnitCostRounds(total: int, quantity: int)
    requires quantity > 0
    ensures var rest := 2 * (total * 1_000_000 - UnitCost(total, quantity) * quantity);
      && -quantity <= rest <= quantity
      && (rest == quantity ==> total < 0) && (rest == -quantity ==> total > 0)
  {
  }

  const ITSELF: int -> int := a => a

  function SumAmounts(amounts: seq<int>): int {
    ToCents(Sum(amounts, ITSELF), 1)
  }

  // A header total is the exact sum of its rounded lines.
  lemma {:induction false} SumAmountsExact(amounts: seq<int>)
    ensures SumAmounts(amounts) == Sum(amounts, ITSELF)
  {
    CentsStayCents(Sum(amounts, ITSELF));
  }

  // ---------------------------------------------------------------------------------------------
  // Splitting one line over several deliveries
  // ---------------------------------------------------------------------------------------------

  // The amounts booked for deliveries of `parts`, against the exact value of their total quantity.
  lemma {:induction false} RoundingDrift(parts: seq<int>, price: int)
    ensures -UNITS_PER_CENT * |parts|
         <= 2 * (Sum(parts, q => LineAmount(q, price)) * UNITS_PER_CENT - Sum(parts, ITSELF) * price)
         <= UNITS_PER_CENT * |parts|
  {
    if parts != [] {
      var init, last := parts[..|parts| - 1], parts[|parts| - 1];
      RoundingDrift(init, price);
      assert (Sum(init, ITSELF) + last) * price == Sum(init, ITSELF) * price + last * price;
    }
  }

  // Booking a line in k deliveries instead of one moves its value by at most (k+1) half cents.
  lemma {:induction false} SplitValueBound(parts: seq<int>, price: int)
    ensures var drift := Sum(parts, q => LineAmount(q, price)) - LineAmount(Sum(parts, ITSELF), price);
            && -(|parts| + 1) <= 2 * drift <= |parts| + 1
            && (|parts| == 1 ==> drift == 0)
  {
    RoundingDrift(parts, price);
    var whole := Sum(parts, ITSELF);
    var booked := LineAmount(whole, price);
    assert -UNITS_PER_CENT <= 2 * (whole * price - booked * UNITS_PER_CENT) <= UNITS_PER_CENT;
    if |parts| == 1 {
      assert parts == [parts[0]] && parts[..0] == [];
      assert Sum(parts, q => LineAmount(q, price)) == Sum([], q => LineAmount(q, price)) + LineAmount(parts[0], price);
      assert whole == Sum([], ITSELF) + parts[0];
    }
  }

  // ---------------------------------------------------------------------------------------------
  // Writing a whole stock off at its rounded average cost
  // ---------------------------------------------------------------------------------------------

  // How far the rounded average, extended over the whole stock, overshoots the stock value.
  function AverageOvershoot(total: int, quantity: int): int
    requires quantity > 0
  {
    quantity * UnitCost(total, quantity) - total * UNITS_PER_CENT
  }

  // What is left of the value once the whole quantity is written off.
  function WriteOffResidue(total: int, quantity: int): int
    requires quantity > 0
  {
    total - LineAmount(quantity, UnitCost(total, quantity))
  }

  // The residue is at most quantity * 0.00005 + 0.005 in either direction, and nothing below 100 units.
  lemma {:induction false} WriteOffBound(total: int, quantity: int)
    requires total >= 0 && quantity > 0
    ensures var residue := WriteOffResidue(total, quantity);
            && -(quantity + UNITS_PER_CENT) <= 2 * UNITS_PER_CENT * residue <= quantity + UNITS_PER_CENT
            && (quantity < UNITS_PER_CENT ==> residue == 0)
  {
    var average := UnitCost(total, quantity);
    var booked := LineAmount(quantity, average);
    assert average * quantity == quantity * average;
    assert -quantity <= 2 * (total * UNITS_PER_CENT - quantity * average) <= quantity;
    assert -UNITS_PER_CENT <= 2 * (quantity * average - booked * UNITS_PER_CENT) <= UNITS_PER_CENT;
  }

  // The write-off clears the value exactly when the average overshoots by less than half a cent,
  // and it is refused (it would leave a negative value) exactly when it overshoots by half a cent or more.
  lemma {:induction false} WriteOffOutcome(total: int, quantity: int)
    requires total >= 0 && quantity > 0
    ensures var overshoot := 2 * AverageOvershoot(total, quantity);
            && (WriteOffResidue(total, quantity) < 0 <==> overshoot >= UNITS_PER_CENT)
            && (WriteOffResidue(total, quantity) == 0 <==> -UNITS_PER_CENT <= overshoot < UNITS_PER_CENT)
  {
    var average := UnitCost(total, quantity);
    var exact := quantity * average;
    assert exact >= 0;
    var booked := LineAmount(quantity, average);
    if -UNITS_PER_CENT <= 2 * (exact - total * UNITS_PER_CENT) < UNITS_PER_CENT {
      HalfUpUnique(exact, UNITS_PER_CENT, total);
    }
  }

  // Both failures happen: 300 pieces worth one cent keep it, 200 pieces worth one cent cannot be written off.
  lemma {:induction false} WriteOffFailures()
    ensures WriteOffResidue(1, 3_000_000) == 1
    ensures WriteOffResidue(1, 2_000_000) == -1
  {
    HalfUpUnique(1_000_000, 3_000_000, 0);
    HalfUpUnique(0, UNITS_PER_CENT, 0);
    HalfUpUnique(1_000_000, 2_000_000, 1);
    HalfUpUnique(2_000_000, UNITS_PER_CENT, 2);
  }
}
