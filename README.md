# Churn and allowance prediction backend — a Dafny model

The backend does two things. An offline generator builds a synthetic bank
customer dataset. Each customer row gets a churn risk score from six
normalised deviations, a loan flag and two interaction bonuses, plus noise.
A logistic transform turns the score into a probability. The probability
column is rescaled towards a 25 % churn rate and clipped to [0, 1], and a
Bernoulli draw makes the label. An HTTP service then answers two questions
with pre-trained classifiers: will this customer churn, and does this
customer qualify for an allowance. Each request becomes a 9-element feature
vector in the column order the classifier was trained on. The classifier's
probability is put in a tier (Critical/Moderate/Low for churn,
Elite/Standard/Ineligible for the allowance), and its predicted class becomes
a sentence.

The model is split into six modules:

- `Sampling` (`sampling.dfy`): clipping and integer truncation of the drawn
  columns, and the customer record they produce.
- `Risk` (`risk.dfy`): the deviations, the weighted risk score and its
  interaction bonuses, with the noise draw as an argument.
- `Scaling` (`scaling.dfy`): sum and mean of a column, and the rescale-and-clip
  step.
- `Generation` (`generation.dfy`): the per-row probability column and its
  rescaling. The logistic transform is a function parameter assumed to map
  into (0, 1) and, where needed, to be monotone.
- `Schema` (`schema.dfy`) and `Api` (`api.dfy`): the training column lists
  and Gender encoding, the request-to-vector mapping, the tiers and the two
  endpoint responses. The classifier is a pair of function parameters:
  `predict_proba` returning a probability in [0, 1], and `predict` returning
  a class.

All arithmetic is exact (`real` and `int`). The headline results are these:

- the risk score never decreases when a customer becomes riskier in any
  weighted column, interaction terms included;
- the rescaled column stays in [0, 1] and its mean never exceeds the target;
- the mean equals the target exactly when no scaled entry exceeds 1;
- with every other row and all noise fixed, a riskier customer never gets a
  lower final churn probability, even though the scaling factor depends on
  the whole column;
- each feature vector holds, at position `i`, the request's value for the
  `i`-th training column, looked up by that column's name.

## Model

| member | source | states |
|---|---|---|
| Sampling.Clip | Backend/generate_churn_data.py:22-36 | The result is at most `hi` and, when `lo <= hi`, at least `lo`. A value inside the bounds is unchanged; one below is raised to `lo`, one above lowered to `hi`. |
| Sampling.ClipInt | Backend/generate_churn_data.py:22-26 | The same bounds and edge behaviour on integer columns (TransactionFrequency, ComplaintsFiled). The result is exactly `Clip` applied to the value read as a real, so it is the same operation. |
| Sampling.Truncate | Backend/generate_churn_data.py:16-18 | `astype(int)` truncates toward zero: for `x >= 0` the result is the largest integer not above `x`; for negative `x` the smallest integer not below it. |
| Sampling.ClipTruncate | Backend/generate_churn_data.py:16-18 | Clip-then-truncate always lands in `[lo, hi]`, and equals plain truncation for a value already inside the bounds. |
| Sampling.MakeCustomer | Backend/generate_churn_data.py:14-36 | Every clipped column lies in its bounds: Age 18–70, CreditScore 300–900, TransactionFrequency 1–60, AvgTransactionAmount 200–200000, ComplaintsFiled 0–10, Balance 0–250000. The record is well formed exactly when the unclipped draws (id, tenure, satisfaction, loan flag) are in their generator ranges. In-range ages truncate to their whole part; in-range complaint counts and balances pass through unchanged. |
| Risk.CreditNorm | Backend/generate_churn_data.py:41 | Positive exactly below 700, zero exactly at 700, and within [-0.5, 1] over the clipped range. |
| Risk.BalanceNorm | Backend/generate_churn_data.py:42 | Positive exactly below 50000, zero exactly at 50000, and within [-4, 1] over the clipped range. |
| Risk.TenureNorm | Backend/generate_churn_data.py:43 | Positive exactly below 4 years, zero exactly at 4, and within [-0.6, 0.4] for tenures 0–10. |
| Risk.FreqNorm | Backend/generate_churn_data.py:44 | Never negative, zero exactly at frequency 18, and at most 1.05 over the clipped range. |
| Risk.FreqNormSymmetric | Backend/generate_churn_data.py:44 | The frequency deviation is symmetric about 18. |
| Risk.ComplaintNorm | Backend/generate_churn_data.py:45 | Zero exactly for no complaints, and within [0, 2] for 0–10 complaints. |
| Risk.SatisfactionNorm | Backend/generate_churn_data.py:46 | Within [0, 1] for grades 1–5, 0 exactly at grade 5 and 1 exactly at grade 1. |
| Risk.DeviationsPointTowardRisk | Backend/generate_churn_data.py:41-46 | The credit, balance, tenure and satisfaction deviations are non-increasing in their feature. The complaint deviation is non-decreasing. The frequency deviation grows with the distance from 18. |
| Risk.LinearRisk | Backend/generate_churn_data.py:51-59 | For a well-formed record the weighted sum lies in [-4.04, 7.28]. |
| Risk.InteractionBonus | Backend/generate_churn_data.py:62-63 | The bonus is 0 when neither predicate holds, 0.6 for an unhappy complainer alone, 0.4 for a new low-balance customer alone and 1.0 for both. Each case holds in both directions. |
| Risk.ChurnRisk | Backend/generate_churn_data.py:51-67 | For a well-formed record the risk lies within [noise - 4.04, noise + 8.28]. |
| Risk.RiskMonotone | Backend/generate_churn_data.py:51-63 | With the noise fixed, take a profile that is at least as risky: more complaints; lower satisfaction, tenure, balance or credit score; a loan; frequency further from 18. Both interaction predicates carry over to it, and its risk is not lower. |
| Risk.LoanAddsFixedIncrement | Backend/generate_churn_data.py:57 | Setting HasLoan from 0 to 1, all else fixed, raises the risk by exactly 0.5. |
| Risk.RiskIgnoresUnweightedColumns | Backend/generate_churn_data.py:51-63 | CustomerId, Age and AvgTransactionAmount do not affect the risk. |
| Scaling.ScaleAt | Backend/generate_churn_data.py:76 | Entry `i` of the scaled column is input entry `i` times the factor. |
| Scaling.ClipAll | Backend/generate_churn_data.py:76 | The clipped column has the input's length, and every entry lies in [0, 1]. |
| Scaling.ClipAllAt | Backend/generate_churn_data.py:76 | Entry `i` of the clipped column is input entry `i` clipped into [0, 1]. |
| Scaling.ClippedMeanAtMost | Backend/generate_churn_data.py:76 | Clipping a non-negative column whose mean is the target gives a mean at most the target. The mean stays equal to the target exactly when no entry exceeds 1. |
| Scaling.ScaleAndClip | Backend/generate_churn_data.py:75-76 | The rescaled column has the input's length, and every entry lies in [0, 1]. |
| Scaling.MeanOfScale | Backend/generate_churn_data.py:75 | Scaling a column by `k` scales its mean by `k`. |
| Scaling.ScaledMeanIsTarget | Backend/generate_churn_data.py:75 | Before clipping, the scaled column's mean is exactly the target. |
| Scaling.ScaleAndClipHitsTarget | Backend/generate_churn_data.py:75-76 | When no scaled entry leaves [0, 1], the output mean equals the target exactly. |
| Scaling.ScaleAndClipMeanAtMostTarget | Backend/generate_churn_data.py:75-76 | For a non-negative column and target, the output mean never exceeds the target. It equals the target exactly when no scaled entry exceeds 1. |
| Scaling.ScaleAndClipKeepsOrder | Backend/generate_churn_data.py:75-76 | With a non-negative factor, rescaling preserves the order of any two entries (not strictly, because of clipping). |
| Scaling.ScaleAndClipEntryMonotone | Backend/generate_churn_data.py:75-76 | In a positive column, raising one entry never lowers that entry's rescaled value, even though the mean and the factor change with it. |
| Generation.RiskProbabilities | Backend/generate_churn_data.py:72 | Entry `i` is the transform of row `i`'s risk under its own noise draw. |
| Generation.ChurnProbabilities | Backend/generate_churn_data.py:72-76 | The final probability column has one entry per row. Every entry is in [0, 1], and the mean is at most the 25 % target rate. |
| Generation.ChurnProbabilitiesHitTarget | Backend/generate_churn_data.py:72-76 | When no scaled entry of the transformed column exceeds 1, the final probability column's mean is exactly the 25 % target rate. |
| Generation.ChurnProbabilityMonotone | Backend/generate_churn_data.py:51-76 | Hold the other rows and all noise fixed, and assume the transform is monotone. Replacing one customer by an at-least-as-risky profile never lowers that customer's final churn probability. |
| Api.Indicator | Backend/main.py:69 | A boolean field encodes to 1.0 exactly when true and 0.0 exactly when false. The same encoding is used for HasCrCard and IsActiveMember at lines 102–103. |
| Api.LowerChar | Backend/main.py:93 | ASCII capitals move to their lower-case letter; every other character is unchanged. |
| Api.Lower | Backend/main.py:93 | Lower-casing keeps the length and lower-cases each character in place. |
| Api.SpellsMale | Backend/main.py:93 | A string lower-cases to "male" exactly when it has four characters spelling m, a, l, e in either case. |
| Api.GenderCode | Backend/main.py:93 | Gender encodes to 1.0 exactly for "male" in any case mix, and to 0.0 for everything else. |
| Api.GenderCodeMatchesTraining | Backend/train_models.py:30 | The serving encoding agrees with the training map: Female 0, Male 1, Other 0. |
| Api.ChurnFeatures | Backend/main.py:61-71 | The vector has 9 entries. Entry `i` is the request's value for the `i`-th name in the churn training column list (Backend/train_models.py lines 11–13), with HasLoan encoded 0/1. |
| Api.AllowanceFeatures | Backend/main.py:95-105 | The vector has 9 entries. Entry `i` is the request's value for the `i`-th name in the allowance training column list (Backend/train_models.py line 31), with Gender and the two flags encoded. |
| Api.RiskLevel | Backend/main.py:79 | "Critical" exactly when prob > 0.7, "Moderate" exactly when 0.4 < prob ≤ 0.7, "Low" exactly when prob ≤ 0.4. The three cases are exclusive and exhaustive. |
| Api.Status | Backend/main.py:113 | "Elite" exactly when prob > 0.8, "Standard" exactly when 0.4 < prob ≤ 0.8, "Ineligible" exactly when prob ≤ 0.4. |
| Api.PredictChurn | Backend/main.py:76-85 | The response echoes CustomerId unchanged. Its probability is the model's class-1 probability of the training-ordered vector, as a percentage in [0, 100]. Its risk level is that probability's tier. The text is "High chance of churn" exactly when the predicted class is 1, else "Low chance of churn". |
| Api.PredictAllowance | Backend/main.py:110-118 | The probability is a percentage in [0, 100] of the training-ordered vector's class-1 probability. The status is its tier. The text is "Allowance Approved" exactly when the predicted class is 1, else "Allowance Not Approved". |

## Left out

- Random draws: the random draws of Backend/generate_churn_data.py (seed, normal/Poisson/choice/binomial columns, noise, Bernoulli label at line 81) are not modelled. The drawn values and the noise are inputs (`Draws`, `noise`), so statistical claims such as the realised churn rate are not stated.
- The logistic transform (line 72) is a function parameter. Where needed it is assumed to map into (0, 1) and to be monotone. Its formula is not modelled.
- Floating point: all arithmetic is exact. IEEE-754 rounding, and the rounding of the reported percentage to two decimals (Backend/main.py:83, 117), are not modelled.
- Scaling.ScaleAndClip: requires a non-empty column with a non-zero mean. For an empty column (mean nan) or a zero mean (factor inf) NumPy would give nan/inf. The generator never reaches either case, because every transformed entry is positive.
- The generator does not validate the target rate or the row count: a rate outside (0, 1) or zero rows is not rejected, and the model adds no such check.
- DataFrame assembly and the Excel export (Backend/generate_churn_data.py:86-103) are I/O and are not modelled.
- The HTTP layer of Backend/main.py is not modelled: the FastAPI app, CORS, request validation, model loading with pickle, and the mapping of any exception to status 400.
- Classifiers: `predict_proba` and `predict` are abstract function parameters. Nothing relates the predicted class to the probability.
- Api.Lower, Api.LowerChar: cover ASCII letters only. Python's `str.lower` also lower-cases other Unicode letters, and none of those lower-case to the letters of "male".
- Backend/train_models.py is only the source of the two column lists and the Gender map. The fitting and saving of the models is not modelled.
- Backend/augment_dataset.py (random per-row edits of a CSV), Backend/analyze.py (printing and plots) and Frontend/script.js (page rendering and `fetch`) are not part of this model.
