/**
 * The deterministic part of drawing the synthetic customer table: every raw
 * draw is clamped into its column's bounds (clip, never reject), and the two
 * columns cast to integers are truncated toward zero afterwards.
 * The random draws themselves are inputs here.
 */
module Sampling {

  /** NumPy's clip on a float column: `minimum(maximum(x, lo), hi)`. */
  function Clip(x: real, lo: real, hi: real): (r: real)
    ensures r <= hi
    ensures lo <= hi ==> lo <= r
    ensures lo <= x <= hi ==> r == x
    ensures x < lo && lo <= hi ==> r == lo
    ensures hi < x ==> r == hi
  {
    var up := if x < lo then lo else x;
    if up > hi then hi else up
  }

  /** Clipping preserves order. */
  lemma ClipMonotone(x: real, y: real, lo: real, hi: real)
    requires x <= y && lo <= hi
    ensures Clip(x, lo, hi) <= Clip(y, lo, hi)
  {
  }

  /** NumPy's clip on an integer column (Poisson counts keep their integer type). */
  function ClipInt(x: int, lo: int, hi: int): (r: int)
    ensures r <= hi
    ensures lo <= hi ==> lo <= r
    ensures lo <= x <= hi ==> r == x
    ensures x < lo && lo <= hi ==> r == lo
    ensures hi < x ==> r == hi
    ensures r as real == Clip(x as real, lo as real, hi as real)
  {
    var up := if x < lo then lo else x;
    if up > hi then hi else up
  }

  /** `astype(int)` on a float: truncation toward zero. */
  function Truncate(x: real): (n: int)
    ensures 0.0 <= x ==> n as real <= x < n as real + 1.0
    ensures x < 0.0 ==> n as real - 1.0 < x <= n as real
  {
    if x >= 0.0 then x.Floor else -((-x).Floor)
  }

  /** A float draw clipped into integer bounds and then cast to int. */
  function ClipTruncate(x: real, lo: int, hi: int): (n: int)
    requires lo <= hi
    ensures lo <= n <= hi
    ensures lo as real <= x <= hi as real ==> n == Truncate(x)
  {
    Truncate(Clip(x, lo as real, hi as real))
  }

  /** The raw values the random generators produce for one row, before clipping. */
  datatype Draws = Draws(
    customerId: int,            // randint(10000000, 99999999)
    age: real,                  // normal(40, 10)
    creditScore: real,          // normal(650, 90)
    tenure: int,                // randint(0, 11)
    transactionFrequency: nat,  // poisson(18)
    avgTransactionAmount: real, // normal(15000, 7000)
    complaintsFiled: nat,       // poisson(1.2)
    customerSatisfaction: int,  // choice([1, 2, 3, 4, 5])
    hasLoan: int,               // binomial(1, 0.45)
    balance: real               // normal(60000, 35000)
  )

  /** The ranges the unclipped generators already guarantee (NumPy's `randint` excludes its upper end). */
  predicate GeneratorRanges(d: Draws)
  {
    10000000 <= d.customerId < 99999999 &&
    0 <= d.tenure <= 10 &&
    1 <= d.customerSatisfaction <= 5 &&
    0 <= d.hasLoan <= 1
  }

  /** One row of the generated table, without its label. */
  datatype Customer = Customer(
    customerId: int,
    age: int,
    creditScore: int,
    tenure: int,
    transactionFrequency: int,
    avgTransactionAmount: real,
    complaintsFiled: int,
    customerSatisfaction: int,
    hasLoan: int,
    balance: real
  )

  /** The bounds of the clipped columns. */
  predicate ClippedColumnsInBounds(c: Customer)
  {
    18 <= c.age <= 70 &&
    300 <= c.creditScore <= 900 &&
    1 <= c.transactionFrequency <= 60 &&
    200.0 <= c.avgTransactionAmount <= 200000.0 &&
    0 <= c.complaintsFiled <= 10 &&
    0.0 <= c.balance <= 250000.0
  }

  /** Every column of a generated row lies in its documented range. */
  predicate WellFormed(c: Customer)
  {
    ClippedColumnsInBounds(c) &&
    10000000 <= c.customerId < 99999999 &&
    0 <= c.tenure <= 10 &&
    1 <= c.customerSatisfaction <= 5 &&
    0 <= c.hasLoan <= 1
  }

  /** Turns one row of raw draws into a table row: clip, then truncate Age and CreditScore. */
  function MakeCustomer(d: Draws): (c: Customer)
    ensures ClippedColumnsInBounds(c)
    ensures WellFormed(c) <==> GeneratorRanges(d)
    ensures 18.0 <= d.age <= 70.0 ==> c.age as real <= d.age < c.age as real + 1.0
    ensures d.complaintsFiled <= 10 ==> c.complaintsFiled == d.complaintsFiled
    ensures 0.0 <= d.balance <= 250000.0 ==> c.balance == d.balance
  {
    Customer(
      d.customerId,
      ClipTruncate(d.age, 18, 70),
      ClipTruncate(d.creditScore, 300, 900),
      d.tenure,
      ClipInt(d.transactionFrequency, 1, 60),
      Clip(d.avgTransactionAmount, 200.0, 200000.0),
      ClipInt(d.complaintsFiled, 0, 10),
      d.customerSatisfaction,
      d.hasLoan,
      Clip(d.balance, 0.0, 250000.0)
    )
  }
}
