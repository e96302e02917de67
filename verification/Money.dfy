/**
 Amounts and balances. A request carries an arbitrary decimal amount, kept here as an exact `real`
 number of cents. A DECIMAL(18,2) column keeps whole cents only: it rounds on store, ties away from
 zero, and refuses a value that needs more than eighteen digits.
 */
module Money {

  /** The first number of cents that DECIMAL(18,2) cannot hold. */
  const LIMIT: int := 1_000_000_000_000_000_000

  /** What a DECIMAL(18,2) column keeps of `x`. */
  function Round(x: real): int {
    if x >= 0.0 then (x + 0.5).Floor else -((0.5 - x).Floor)
  }

  /** The amount columns: in range and CHECK (amount > 0), both judged after rounding. */
  predicate AmountFits(x: real) {
    0 < Round(x) < LIMIT
  }

  /** The balance column: in range and CHECK (balance >= 0), both judged after rounding. */
  predicate BalanceFits(x: real) {
    0 <= Round(x) < LIMIT
  }

  /** No part of `x` is below one cent. */
  predicate CentExact(x: real) {
    x == x.Floor as real
  }

  /** The part of `x` below one cent is exactly half a cent. */
  predicate HalfCent(x: real) {
    x - x.Floor as real == 0.5
  }

  /** One for a half-cent amount, zero for any other: the cent that rounding creates. */
  function Spare(x: real): (n: nat)
    ensures CentExact(x) ==> n == 0
  {
    if HalfCent(x) then 1 else 0
  }

  /** Round gives a nearest cent, the one further from zero on a tie, and keeps whole cents. */
  lemma RoundIsNearest(x: real)
    ensures Round(x) as real - 0.5 <= x <= Round(x) as real + 0.5
    ensures HalfCent(x) ==> Round(x) as real == if x >= 0.0 then x + 0.5 else x - 0.5
    ensures CentExact(x) <==> Round(x) as real == x
  {
    var whole := x.Floor;
    var part := x - whole as real;
    if x >= 0.0 {
      FloorOfShift(whole, part + 0.5);
    } else {
      FloorOfShift(-whole, 0.5 - part);
    }
  }

  /** The amount columns take half a cent and more, up to what rounds to sixteen digits before the point. */
  lemma AmountFitsIff(x: real)
    ensures AmountFits(x) <==> 0.5 <= x < 999_999_999_999_999_999.5
  {
    RoundIsNearest(x);
    assert HalfCent(x) ==> x == x.Floor as real + 0.5;
  }

  /** The balance column takes what rounds to zero or more, up to the same limit. */
  lemma BalanceFitsIff(x: real)
    ensures BalanceFits(x) <==> -0.5 < x < 999_999_999_999_999_999.5
  {
    RoundIsNearest(x);
    assert HalfCent(x) ==> x == x.Floor as real + 0.5;
  }

  lemma FloorOfShift(n: int, f: real)
    ensures (n as real + f).Floor == n + f.Floor
  {
  }

  /** Adding to a stored balance stores exactly the rounded amount on top. */
  lemma RoundAfterAdding(balance: int, amount: real)
    requires 0 <= balance && 0.0 <= amount
    ensures Round(balance as real + amount) == balance + Round(amount)
  {
    assert (balance as real + amount + 0.5).Floor == balance + (amount + 0.5).Floor;
  }

  /** Taking from a stored balance takes the rounded amount, less one cent on a half-cent tie. */
  lemma RoundAfterTaking(balance: int, amount: real)
    requires 0.0 <= amount <= balance as real
    ensures Round(balance as real - amount) == balance - Round(amount) + Spare(amount)
  {
    var whole := amount.Floor;
    var part := amount - whole as real;
    assert balance as real - amount + 0.5 == (balance - whole) as real + (0.5 - part);
    assert (balance as real - amount + 0.5).Floor == balance - whole + (0.5 - part).Floor;
    assert (amount + 0.5).Floor == whole + (part + 0.5).Floor;
  }

  /** An amount the database accepts is positive even before rounding. */
  lemma FittingAmountIsPositive(amount: real)
    requires AmountFits(amount)
    ensures amount >= 0.5
  {
  }
}
