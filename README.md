# Credit Score Analyzer — scoring model

A Dafny model of the scoring logic of the Credit Score Analyzer dashboard
(`appdash.py`). The dashboard reads a user's rows from five record stores
and shows four sub-scores and a composite "iScore":

- **payment**: on-time payments out of total payments, times 100. It is 0 when the total is 0.
- **debt utilisation**: `(1 - used / limit) * 100`. It is 0 when the limit is 0.
- **history**: `(current year - start year) / 10 * 100`. It uses years only and has no cap.
- **mix**: credit types used out of types tracked, times 100. It is 0 when no types are tracked.

The composite is the weighted sum `0.35 / 0.30 / 0.15 / 0.20` of the four
sub-scores. It is rescaled linearly from [0, 100] onto [300, 850].

The model has three modules:

- `Records` (`records.dfy`): the rows of the five stores. Each store is a map keyed by user identifier. A single-row lookup (`fetchone`) is a map lookup that yields an `Option`.
- `Scoring` (`scoring.dfy`): the sub-score formulas, the weighted sum, the rescale and `calculate_score_components`. The lemmas cover ranges, boundary values, monotonicity, the worked example, and the agreement of the two debt formulas.
- `Tabs` (`tabs.dfy`): the dispatch of `render_tab`. The lemmas cover the prompt for a missing identifier, "Invalid Tab", "user not found", and the match between each tab's score and the final-score breakdown.

The code is pure, so the model uses datatypes, functions and lemmas. The
database fetches and the clock become parameters.

Three behaviours of the code are worth stating outright:

- The debt score is written twice. The final-score path (`appdash.py:56`) uses an explicit 0 when the limit is zero. The debt tab (`appdash.py:180-181`) uses a ratio of 1 instead. Both are modelled, and `DebtPathsAgree` proves they give the same score on every record.
- The code does not check that the account start year lies in the past. A future start year gives a negative history score.
- Only the home tab reads the users store (`appdash.py:158-161`). Every other tab computes its score whether or not the user exists (`ScoringTabsIgnoreUsers`).

## Model

| member | source | states |
|---|---|---|
| `Scoring.Percent` | appdash.py:55-59 | The shared ratio form. It is 0 when the denominator is 0. Otherwise the result times the denominator equals 100 times the numerator, and equal numerator and denominator give 100. |
| `Scoring.PercentBounds` | appdash.py:55-59 | If 0 <= numerator <= denominator and the denominator is positive, the ratio lies in [0, 100]. |
| `Scoring.PercentMonotone` | appdash.py:55-59 | For a fixed positive denominator, a larger numerator never gives a smaller ratio. |
| `Scoring.PaymentScore` | appdash.py:55 | It is 0 when the total is 0 or no payment was on time. It is 100 when every payment was on time. Otherwise score × total = 100 × on-time. |
| `Scoring.PaymentScoreBounds` | appdash.py:170-175 | For a well-formed record (0 <= on-time <= total), the payment score lies in [0, 100], the scale the tab displays. |
| `Scoring.DebtScore` | appdash.py:56 | The final-score formula. It is 0 when the limit is 0. Otherwise (100 − score) × limit = 100 × used, so nothing used gives 100 and the full limit used gives 0. |
| `Scoring.DebtUsage` | appdash.py:180 | The debt tab's ratio. It is 1 when the limit is 0. Otherwise ratio × limit = used. |
| `Scoring.DebtTabScore` | appdash.py:180-181 | The debt tab's score. It is 0 when the limit is 0, and at most 100 exactly when the ratio is non-negative. |
| `Scoring.DebtPathsAgree` | appdash.py:180-181 | The debt tab's score equals the final-score formula on every record, including a zero limit. |
| `Scoring.DebtScoreBounds` | appdash.py:56 | If 0 <= used <= limit and the limit is positive, the debt score lies in [0, 100]. |
| `Scoring.DebtOverLimitNegative` | appdash.py:56 | Used credit above a positive limit gives a negative debt score. |
| `Scoring.DebtScoreAntitone` | appdash.py:56 | Under the same positive limit, using more credit never raises the debt score. |
| `Scoring.HistoryScore` | appdash.py:57-58 | The score is exactly 10 × (current year − start year). It has no cap above 100 and is negative for a future start year. |
| `Scoring.AccountAge` | appdash.py:57 | The age shown on the history tab is the current year minus the start year, and it is negative exactly when the start year lies in the future. |
| `Scoring.HistoryIgnoresMonthAndDay` | appdash.py:57-58 | Two start dates in the same year give the same history score. |
| `Scoring.MixScore` | appdash.py:59 | It is 0 when no types are tracked or none are used. It is 100 when all are used. Otherwise score × tracked = 100 × used. |
| `Scoring.MixScoreBounds` | appdash.py:202-207 | If 0 <= used <= tracked, the mix score lies in [0, 100]. |
| `Scoring.RawScore` | appdash.py:61-66 | The weights sum to 1: four equal sub-scores give that same value. Sub-scores in [0, 100] give a raw score in [0, 100]. |
| `Scoring.RawScoreMonotone` | appdash.py:61-66 | Raising sub-scores never lowers the raw score. |
| `Scoring.Scaled` | appdash.py:67 | Raw 0 maps to 300 and raw 100 maps to 850. Raw scores in [0, 100] map into [300, 850]. |
| `Scoring.ScaledStrictlyIncreasing` | appdash.py:67 | One raw score is below another exactly when its scaled score is below the other's. |
| `Scoring.FinalScoreMonotone` | appdash.py:61-67 | Raising any sub-score, with the others unchanged or raised, never lowers the iScore. |
| `Scoring.ComponentsOf` | appdash.py:55-69 | The payment, debt and mix sub-scores are those of the given rows (`PaymentScore`, `DebtScore`, `MixScore`, whose contracts give each ratio). The history score is 10 per year of age. The returned iScore is the rescaled weighted sum of the returned sub-scores. |
| `Scoring.CalculateScoreComponents` | appdash.py:49-69 | The result is the components of the user's four rows, which must all exist. Payment × total = 100 × on-time, (100 − debt) × limit = 100 × used, and mix × tracked = 100 × used, each 0 on a zero denominator. History is 10 × (current year − start year). The iScore is consistent with the sub-scores it returns. |
| `Scoring.ComponentsInRange` | appdash.py:55-67 | Rows in their nominal range give every sub-score in [0, 100] and an iScore in [300, 850]. Nominal range means valid counts, used <= limit, and an account aged 0 to 10 years. |
| `Scoring.MorePaymentsOnTimeNeverLower` | appdash.py:55-67 | With the same non-negative total, more on-time payments never lower the iScore. |
| `Scoring.LessCreditUsedNeverLower` | appdash.py:56-67 | Under the same positive limit, using less credit never lowers the iScore. |
| `Scoring.OlderAccountNeverLower` | appdash.py:57-67 | An earlier start year never lowers the iScore. |
| `Scoring.MoreCreditTypesNeverLower` | appdash.py:59-67 | With the same non-negative number of tracked types, using more types never lowers the iScore. |
| `Scoring.WorkedExample` | appdash.py:55-67 | The rows 8/10, 2000/10000, a start five years ago and 3/5 give sub-scores (80, 80, 50, 60), raw 71.5 and iScore 693.25. |
| `Records.Fetch` | appdash.py:19-47 | A single-row lookup by user identifier yields nothing exactly when the store has no row for that identifier, and otherwise yields that row. |
| `Tabs.IsFalsy` | appdash.py:155 | An identifier fails the `not user_id` test exactly when it is absent or 0. |
| `Tabs.RenderTab` | appdash.py:154-223 | The prompt appears exactly when the identifier is absent or 0. "Invalid Tab" appears exactly for a truthy identifier and an unknown tab. On the home tab, "user not found" appears exactly when no user row exists, and otherwise the stored user is shown. Each known scoring tab shows its own view with the user's stored row and a score consistent with it; the debt tab agrees with the final-score formula. The score tab shows `CalculateScoreComponents` for the user. |
| `Tabs.PromptBeforeLookup` | appdash.py:155-156 | With a falsy identifier the view is the prompt, whatever the stores and the clock hold. |
| `Tabs.ScoringTabsIgnoreUsers` | appdash.py:158-211 | Every tab other than home renders the same whatever the users store holds. |
| `Tabs.FinalScoreMatchesTabs` | appdash.py:168-221 | The four sub-scores on the final-score tab equal the scores the payment, debt, history and mix tabs show for the same user. |

## Left out

- Dash layout, styling and callback wiring (`appdash.py:1-14, 71-153, 225-226`): presentation only. Each tab's output is reduced to a `View` value holding the numbers it shows.
- The MySQL connection and the five fetchers (`appdash.py:16-47`): these are external I/O. The stores are a `Store` parameter of maps keyed by user identifier.
- `datetime.now()`: the current year is a parameter.
- Floating-point arithmetic and `round(x, 2)`: the model computes with exact reals. In IEEE doubles the four weights sum to slightly less than 1, and the displayed scores are rounded to two decimals. Neither effect is modelled.
- A row that is absent for a scoring tab or for the final score: the code crashes when it indexes `None`. This is a defect, not a behaviour. The model requires the row to be present (`RowsAvailable`, `HasScoringRows`).
- NULL columns inside a present row, and a user identifier that is not an integer: not modelled. The counts are integers, money amounts are reals, and the identifier is an optional integer.
- Repeated renders with the same stored rows give the same scores. The model states no lemma for this, because every Dafny function is deterministic by construction.
