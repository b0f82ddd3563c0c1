/**
 * The noise-free arithmetic behind each generated row's churn risk: six
 * normalised deviations, each pointing in the risk-increasing direction, a
 * weighted sum of them and of the loan flag, two boolean interaction bonuses,
 * and one noise draw per row (an input here).
 */
module Risk {
  import opened Sampling

  // Weights of the linear part of the risk score.
  const SatisfactionWeight: real := 1.8
  const ComplaintWeight: real := 1.4
  const TenureWeight: real := 0.9
  const BalanceWeight: real := 0.8
  const CreditWeight: real := 0.6
  const LoanWeight: real := 0.5
  const FrequencyWeight: real := 0.4

  // Bonuses of the two interaction terms.
  const UnhappyComplainerBonus: real := 0.6
  const NewLowBalanceBonus: real := 0.4

  /** Credit score below 700 raises the risk; 400 points make one unit. */
  function CreditNorm(creditScore: int): (r: real)
    ensures r > 0.0 <==> creditScore < 700
    ensures r == 0.0 <==> creditScore == 700
    ensures 300 <= creditScore <= 900 ==> -0.5 <= r <= 1.0
  {
    (700 - creditScore) as real / 400.0
  }

  /** Balance below 50000 raises the risk, relative to 50000. */
  function BalanceNorm(balance: real): (r: real)
    ensures r > 0.0 <==> balance < 50000.0
    ensures r == 0.0 <==> balance == 50000.0
    ensures 0.0 <= balance <= 250000.0 ==> -4.0 <= r <= 1.0
  {
    (50000.0 - balance) / 50000.0
  }

  /** Tenure below 4 years raises the risk; ten years make one unit. */
  function TenureNorm(tenure: int): (r: real)
    ensures r > 0.0 <==> tenure < 4
    ensures r == 0.0 <==> tenure == 4
    ensures 0 <= tenure <= 10 ==> -0.6 <= r <= 0.4
  {
    (4 - tenure) as real / 10.0
  }

  /** Distance of the transaction frequency from the usual 18, in either direction. */
  function FreqNorm(frequency: int): (r: real)
    ensures r >= 0.0
    ensures r == 0.0 <==> frequency == 18
    ensures 1 <= frequency <= 60 ==> r <= 1.05
  {
    Distance18(frequency) as real / 40.0
  }

  /** How far a frequency lies from 18 (NumPy's `abs(f - 18)`). */
  function Distance18(frequency: int): nat
  {
    if frequency >= 18 then frequency - 18 else 18 - frequency
  }

  /** Complaints raise the risk; five complaints make one unit. */
  function ComplaintNorm(complaints: int): (r: real)
    ensures r == 0.0 <==> complaints == 0
    ensures 0 <= complaints <= 10 ==> 0.0 <= r <= 2.0
  {
    complaints as real / 5.0
  }

  /** Satisfaction below the top grade 5 raises the risk; grade 1 is one unit. */
  function SatisfactionNorm(satisfaction: int): (r: real)
    ensures 1 <= satisfaction <= 5 ==> 0.0 <= r <= 1.0
    ensures r == 0.0 <==> satisfaction == 5
    ensures r == 1.0 <==> satisfaction == 1
  {
    (5 - satisfaction) as real / 4.0
  }

  /** Each deviation grows as its feature moves the risky way. */
  lemma DeviationsPointTowardRisk(c: Customer, d: Customer)
    ensures c.creditScore <= d.creditScore ==> CreditNorm(d.creditScore) <= CreditNorm(c.creditScore)
    ensures c.balance <= d.balance ==> BalanceNorm(d.balance) <= BalanceNorm(c.balance)
    ensures c.tenure <= d.tenure ==> TenureNorm(d.tenure) <= TenureNorm(c.tenure)
    ensures c.customerSatisfaction <= d.customerSatisfaction ==>
              SatisfactionNorm(d.customerSatisfaction) <= SatisfactionNorm(c.customerSatisfaction)
    ensures c.complaintsFiled <= d.complaintsFiled ==> ComplaintNorm(c.complaintsFiled) <= ComplaintNorm(d.complaintsFiled)
    ensures Distance18(c.transactionFrequency) <= Distance18(d.transactionFrequency) ==>
              FreqNorm(c.transactionFrequency) <= FreqNorm(d.transactionFrequency)
  {
  }

  /** The frequency deviation is symmetric about 18. */
  lemma FreqNormSymmetric(delta: int)
    ensures FreqNorm(18 + delta) == FreqNorm(18 - delta)
  {
  }

  /** First interaction: an unhappy customer (satisfaction at most 2) with at least 3 complaints. */
  predicate UnhappyComplainer(c: Customer)
  {
    c.customerSatisfaction <= 2 && c.complaintsFiled >= 3
  }

  /** Second interaction: a new customer (tenure at most 1) with a balance below 20000. */
  predicate NewLowBalance(c: Customer)
  {
    c.tenure <= 1 && c.balance < 20000.0
  }

  /** The weighted sum of the deviations and the loan flag, without interactions or noise. */
  function LinearRisk(c: Customer): (r: real)
    ensures WellFormed(c) ==> -4.04 <= r <= 7.28
  {
    SatisfactionWeight * SatisfactionNorm(c.customerSatisfaction) +
    ComplaintWeight * ComplaintNorm(c.complaintsFiled) +
    TenureWeight * TenureNorm(c.tenure) +
    BalanceWeight * BalanceNorm(c.balance) +
    CreditWeight * CreditNorm(c.creditScore) +
    LoanWeight * c.hasLoan as real +
    FrequencyWeight * FreqNorm(c.transactionFrequency)
  }

  /** What the two interaction terms add to the risk. */
  function InteractionBonus(c: Customer): (b: real)
    ensures b == 0.0 <==> !UnhappyComplainer(c) && !NewLowBalance(c)
    ensures b == 0.6 <==> UnhappyComplainer(c) && !NewLowBalance(c)
    ensures b == 0.4 <==> !UnhappyComplainer(c) && NewLowBalance(c)
    ensures b == 1.0 <==> UnhappyComplainer(c) && NewLowBalance(c)
  {
    (if UnhappyComplainer(c) then UnhappyComplainerBonus else 0.0) +
    (if NewLowBalance(c) then NewLowBalanceBonus else 0.0)
  }

  /** The churn risk of one row, given that row's noise draw. */
  function ChurnRisk(c: Customer, noise: real): (r: real)
    ensures WellFormed(c) ==> noise - 4.04 <= r <= noise + 8.28
  {
    LinearRisk(c) + InteractionBonus(c) + noise
  }

  /**
   * `d` is at least as risky as `c`: no fewer complaints, no higher
   * satisfaction, tenure, balance or credit score, a loan if `c` has one,
   * a frequency no closer to 18, and the same remaining columns.
   */
  predicate AtLeastAsRisky(c: Customer, d: Customer)
  {
    d.customerId == c.customerId && d.age == c.age &&
    d.avgTransactionAmount == c.avgTransactionAmount &&
    c.complaintsFiled <= d.complaintsFiled &&
    d.customerSatisfaction <= c.customerSatisfaction &&
    d.tenure <= c.tenure &&
    d.balance <= c.balance &&
    d.creditScore <= c.creditScore &&
    c.hasLoan <= d.hasLoan &&
    Distance18(c.transactionFrequency) <= Distance18(d.transactionFrequency)
  }

  /** With the noise fixed, a riskier profile never has a lower risk, interactions included. */
  lemma RiskMonotone(c: Customer, d: Customer, noise: real)
    requires AtLeastAsRisky(c, d)
    ensures UnhappyComplainer(c) ==> UnhappyComplainer(d)
    ensures NewLowBalance(c) ==> NewLowBalance(d)
    ensures ChurnRisk(c, noise) <= ChurnRisk(d, noise)
  {
    DeviationsPointTowardRisk(c, d);
  }

  /** Taking out a loan, all else fixed, adds exactly the loan weight. */
  lemma LoanAddsFixedIncrement(c: Customer, noise: real)
    requires c.hasLoan == 0
    ensures ChurnRisk(c.(hasLoan := 1), noise) == ChurnRisk(c, noise) + 0.5
  {
  }

  /** Age, average transaction amount and the identifier do not enter the risk. */
  lemma RiskIgnoresUnweightedColumns(c: Customer, id: int, age: int, amount: real, noise: real)
    ensures ChurnRisk(c.(customerId := id, age := age, avgTransactionAmount := amount), noise) == ChurnRisk(c, noise)
  {
  }
}
