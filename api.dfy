/**
 * The two prediction endpoints of the service, without the HTTP layer: a
 * request becomes a fixed-order feature vector, a trained classifier (a
 * parameter here) turns it into a probability and a predicted class, and the
 * response labels the probability with a tier.
 */
module Api {
  import opened Schema

  datatype Option<T> = None | Some(value: T)

  /** What a classifier's `predict_proba` reports for class 1. */
  type Probability = p: real | 0.0 <= p <= 1.0

  datatype ChurnRequest = ChurnRequest(
    customerId: string,
    age: real,
    creditScore: real,
    tenure: real,
    transactionFrequency: real,
    avgTransactionAmount: real,
    complaintsFiled: real,
    customerSatisfaction: real,
    hasLoan: bool,
    balance: real
  )

  datatype AllowanceRequest = AllowanceRequest(
    creditScore: real,
    gender: string,
    age: real,
    tenure: real,
    balance: real,
    numOfProducts: real,
    hasCrCard: bool,
    isActiveMember: bool,
    estimatedSalary: real
  )

  datatype ChurnResponse = ChurnResponse(customerId: string, probability: real, riskLevel: string, prediction: string)

  datatype AllowanceResponse = AllowanceResponse(prediction: string, probability: real, status: string)

  /** A boolean request field as a feature: 1.0 for true, 0.0 for false. */
  function Indicator(b: bool): (r: real)
    ensures r == 1.0 <==> b
    ensures r == 0.0 <==> !b
  {
    if b then 1.0 else 0.0
  }

  /** Lower-cases an ASCII letter and leaves every other character alone. */
  function LowerChar(c: char): (d: char)
    ensures 'A' <= c <= 'Z' ==> d as int == c as int + 32
    ensures !('A' <= c <= 'Z') ==> d == c
  {
    if 'A' <= c <= 'Z' then (c as int + 32) as char else c
  }

  /** `c` is the lower-case letter `lower` or its upper-case form. */
  predicate Spelled(c: char, lower: char)
  {
    c == lower || ('A' <= c <= 'Z' && c as int + 32 == lower as int)
  }

  /** A character lower-cases to a lower-case letter exactly when it spells that letter. */
  lemma LowerCharSpelled(c: char, lower: char)
    requires 'a' <= lower <= 'z'
    ensures LowerChar(c) == lower <==> Spelled(c, lower)
  {
  }

  /** Python's `str.lower`, on ASCII letters. */
  function Lower(s: string): (r: string)
    ensures |r| == |s|
    ensures forall i :: 0 <= i < |s| ==> r[i] == LowerChar(s[i])
  {
    if s == [] then [] else [LowerChar(s[0])] + Lower(s[1..])
  }

  /** The Gender feature: 1.0 for "male" in any mix of upper and lower case, 0.0 for anything else. */
  function GenderCode(gender: string): (r: real)
    ensures r == 0.0 || r == 1.0
    ensures r == 1.0 <==>
              |gender| == 4 && Spelled(gender[0], 'm') && Spelled(gender[1], 'a') && Spelled(gender[2], 'l') && Spelled(gender[3], 'e')
  {
    SpellsMale(gender);
    if Lower(gender) == "male" then 1.0 else 0.0
  }

  /** Which strings lower-case to "male". */
  lemma SpellsMale(gender: string)
    ensures Lower(gender) == "male" <==>
              |gender| == 4 && Spelled(gender[0], 'm') && Spelled(gender[1], 'a') && Spelled(gender[2], 'l') && Spelled(gender[3], 'e')
  {
    var low := Lower(gender);
    if |gender| == 4 {
      LowerCharSpelled(gender[0], 'm');
      LowerCharSpelled(gender[1], 'a');
      LowerCharSpelled(gender[2], 'l');
      LowerCharSpelled(gender[3], 'e');
      assert low == "male" <==> low[0] == 'm' && low[1] == 'a' && low[2] == 'l' && low[3] == 'e';
    }
  }

  /** The serving encoding of Gender agrees with the encoding the training data uses. */
  lemma GenderCodeMatchesTraining()
    ensures forall g :: g in TrainingGenderCodes ==> GenderCode(g) == TrainingGenderCodes[g]
  {
    assert TrainingGenderCodes.Keys == {"Female", "Male", "Other"};
    assert GenderCode("Male") == 1.0;
    assert GenderCode("Female") == 0.0;
    assert GenderCode("Other") == 0.0;
  }

  /** The churn request's value for a training column, looked up by the column's name. */
  function ChurnColumn(req: ChurnRequest, name: string): Option<real>
  {
    if name == "Age" then Some(req.age)
    else if name == "CreditScore" then Some(req.creditScore)
    else if name == "Tenure" then Some(req.tenure)
    else if name == "TransactionFrequency" then Some(req.transactionFrequency)
    else if name == "AvgTransactionAmount" then Some(req.avgTransactionAmount)
    else if name == "ComplaintsFiled" then Some(req.complaintsFiled)
    else if name == "CustomerSatisfaction" then Some(req.customerSatisfaction)
    else if name == "HasLoan" then Some(Indicator(req.hasLoan))
    else if name == "Balance" then Some(req.balance)
    else None
  }

  /** The allowance request's value for a training column, looked up by the column's name. */
  function AllowanceColumn(req: AllowanceRequest, name: string): Option<real>
  {
    if name == "CreditScore" then Some(req.creditScore)
    else if name == "Gender" then Some(GenderCode(req.gender))
    else if name == "Age" then Some(req.age)
    else if name == "Tenure" then Some(req.tenure)
    else if name == "Balance" then Some(req.balance)
    else if name == "NumOfProducts" then Some(req.numOfProducts)
    else if name == "HasCrCard" then Some(Indicator(req.hasCrCard))
    else if name == "IsActiveMember" then Some(Indicator(req.isActiveMember))
    else if name == "EstimatedSalary" then Some(req.estimatedSalary)
    else None
  }

  /** The vector the churn model is asked about: position `i` holds the column the model was trained on at `i`. */
  function ChurnFeatures(req: ChurnRequest): (v: seq<real>)
    ensures |v| == |ChurnFeatureNames| == 9
    ensures forall i :: 0 <= i < |v| ==> ChurnColumn(req, ChurnFeatureNames[i]) == Some(v[i])
  {
    [
      req.age,
      req.creditScore,
      req.tenure,
      req.transactionFrequency,
      req.avgTransactionAmount,
      req.complaintsFiled,
      req.customerSatisfaction,
      Indicator(req.hasLoan),
      req.balance
    ]
  }

  /** The vector the allowance model is asked about: position `i` holds the column the model was trained on at `i`. */
  function AllowanceFeatures(req: AllowanceRequest): (v: seq<real>)
    ensures |v| == |AllowanceFeatureNames| == 9
    ensures forall i :: 0 <= i < |v| ==> AllowanceColumn(req, AllowanceFeatureNames[i]) == Some(v[i])
  {
    [
      req.creditScore,
      GenderCode(req.gender),
      req.age,
      req.tenure,
      req.balance,
      req.numOfProducts,
      Indicator(req.hasCrCard),
      Indicator(req.isActiveMember),
      req.estimatedSalary
    ]
  }

  /** The churn risk tier of a probability. */
  function RiskLevel(prob: real): (level: string)
    ensures level == "Critical" <==> prob > 0.7
    ensures level == "Moderate" <==> 0.4 < prob <= 0.7
    ensures level == "Low" <==> prob <= 0.4
  {
    if prob > 0.7 then "Critical" else if prob > 0.4 then "Moderate" else "Low"
  }

  /** The allowance tier of a probability. */
  function Status(prob: real): (status: string)
    ensures status == "Elite" <==> prob > 0.8
    ensures status == "Standard" <==> 0.4 < prob <= 0.8
    ensures status == "Ineligible" <==> prob <= 0.4
  {
    if prob > 0.8 then "Elite" else if prob > 0.4 then "Standard" else "Ineligible"
  }

  /** The churn endpoint, given the trained model's `predict_proba` (class 1) and `predict`. */
  function PredictChurn(req: ChurnRequest, proba: seq<real> -> Probability, predict: seq<real> -> int): (resp: ChurnResponse)
    ensures resp.customerId == req.customerId
    ensures 0.0 <= resp.probability <= 100.0
    ensures resp.probability == 100.0 * proba(ChurnFeatures(req))
    ensures resp.riskLevel == RiskLevel(proba(ChurnFeatures(req)))
    ensures resp.prediction == "High chance of churn" <==> predict(ChurnFeatures(req)) == 1
    ensures resp.prediction == "Low chance of churn" <==> predict(ChurnFeatures(req)) != 1
  {
    var features := ChurnFeatures(req);
    var prob := proba(features);
    ChurnResponse(
      req.customerId,
      prob * 100.0,
      RiskLevel(prob),
      if predict(features) == 1 then "High chance of churn" else "Low chance of churn"
    )
  }

  /** The allowance endpoint, given the trained model's `predict_proba` (class 1) and `predict`. */
  function PredictAllowance(req: AllowanceRequest, proba: seq<real> -> Probability, predict: seq<real> -> int): (resp: AllowanceResponse)
    ensures 0.0 <= resp.probability <= 100.0
    ensures resp.probability == 100.0 * proba(AllowanceFeatures(req))
    ensures resp.status == Status(proba(AllowanceFeatures(req)))
    ensures resp.prediction == "Allowance Approved" <==> predict(AllowanceFeatures(req)) == 1
    ensures resp.prediction == "Allowance Not Approved" <==> predict(AllowanceFeatures(req)) != 1
  {
    var features := AllowanceFeatures(req);
    var prob := proba(features);
    AllowanceResponse(
      if predict(features) == 1 then "Allowance Approved" else "Allowance Not Approved",
      prob * 100.0,
      Status(prob)
    )
  }
}
