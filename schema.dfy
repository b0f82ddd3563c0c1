/**
 * The column contract the training step fixes: the ordered feature lists the
 * two classifiers are fitted on, and the Gender encoding applied to the
 * training data.
 */
module Schema {

  /** The churn model's feature columns, in training order. */
  const ChurnFeatureNames: seq<string> := [
    "Age", "CreditScore", "Tenure", "TransactionFrequency",
    "AvgTransactionAmount", "ComplaintsFiled", "CustomerSatisfaction",
    "HasLoan", "Balance"
  ]

  /** The allowance model's feature columns, in training order. */
  const AllowanceFeatureNames: seq<string> := [
    "CreditScore", "Gender", "Age", "Tenure", "Balance",
    "NumOfProducts", "HasCrCard", "IsActiveMember", "EstimatedSalary"
  ]

  /** How the training data encodes the Gender column. */
  const TrainingGenderCodes: map<string, real> := map["Female" := 0.0, "Male" := 1.0, "Other" := 0.0]
}
