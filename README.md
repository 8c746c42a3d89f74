# Health risk screening: the mock risk engine and its result views

This project models, in Dafny, the part of the health screening web app that
computes something: the mock risk-scoring engine that turns one screening
record (age, gender, glucose, blood pressure, skin thickness, insulin, BMI,
diabetes pedigree, smoker and family-history flags) into risk percentages
for Type 2 Diabetes, Heart Disease and Obesity. It also models the pieces
that classify and serialise those percentages: the four-band risk
classifier and its icon, the detailed card, the summary rows, and the
plain-text report behind the login-guarded action buttons.

Modules, one per source file, plus `Strings` for the JavaScript string built-ins. `RiskLevels` gathers the classifier that several source files copy:

- `Health` holds the records `ScreeningData` and `DiseaseRisk` (src/types/health.ts).
- `RiskCalculation` holds the engine (src/utils/riskCalculation.ts).
  - Each factor gets a sub-score `min(max(value/threshold - 0.5, 0) * 2, 1)`, which is then weighted.
  - `CalculateRisk` is the accumulator loop. It is proved equal to the specification function `Risk`.
  - `Risk` is `clamp(round(100 * sum) + 10r - 5, 5, 95)`. Here `r` is the `Math.random()` draw, passed in as a parameter with `0 <= r < 1`.
  - Rounding happens before the jitter is added, so the result is a real in [5, 95]. It is not in general a whole percentage.
  - `MockResults` (specification) and `GenerateMockResults` (method) build the three factor tables and the fixed result list.
- `RiskLevels` holds `getRiskLevel` and `getRiskIcon`, defined once here. The `getRiskLevel` if-chain is copied verbatim in four source files: RiskCard.tsx:13-18, RiskSummary.tsx:10-15, ActionButtons.tsx:9-14 and Results.tsx:148-153. `getRiskIcon` appears twice, at RiskCard.tsx:20-25 and Results.tsx:156-161. A `Band` datatype and the interval predicate `InBand` give an independent reference for the if-chain.
- `RiskCard`, `RiskSummary` and `ActionButtons` hold the result components (src/components/results/). Strings are `seq<char>`.
- `Strings` holds JavaScript's `join`, `startsWith` and first-occurrence `replace`. It also proves the lemmas that locate each element inside a joined string.
- `ResultsPage` holds the page (src/pages/Results.tsx). Its class `Results` keeps the `results` state, which `GenerateMockResults` sets.

Modelling decisions:

- JavaScript numbers are `real`. `Math.round(x)` is `Floor(x + 0.5)`. Its contract (`n - 0.5 <= x < n + 0.5`) pins down round-half-up.
- The jitter draws are parameters. `generateMockResults` calls `calculateRisk` three times, so it takes three draws: `rD`, `rH`, `rO`, in call order.
- Every threshold must be positive (`WellFormed`). Every call site passes a positive constant.
- The number-to-string conversion of `risk` in labels and in the report is a parameter `format: real -> string`.
- The login check (`localStorage.getItem("user") !== null`) is the boolean `loggedIn`.
- A handler's browser side effects come back as an ordered list of `Effect`s: a toast, the print dialog, or a saved file.
- Results.tsx has its own copies of `calculateRisk`, `generateMockResults`, `getRiskLevel` and `getRiskIcon`, and the page reuses the single definitions.
  - The `calculateRisk` copy (Results.tsx:134-145) is identical to riskCalculation.ts:10-19 apart from comments, its parameter's inline type annotation (instead of `RiskFactor[]`) and its not being exported.
  - The `getRiskLevel` and `getRiskIcon` copies (Results.tsx:148-161) are identical to those in RiskCard.tsx.
  - The `generateMockResults` copy (Results.tsx:64-131) builds the same three factor tables and the same list. It differs in one point: it ends with `setResults([...])` (Results.tsx:93) where the util has `return [...]` (riskCalculation.ts:47). The model's `Results.GenerateMockResults` therefore stores the list in the `results` field instead of returning it.
- `calculateRisk` rounds before it adds the jitter (riskCalculation.ts:18), so the score is a real, not a whole percentage.
- The obesity table compares `gender` with the string `"female"` exactly (riskCalculation.ts:44), and so does the model.
- The label's CSS class is `font-semibold ${color}` (RiskCard.tsx:35, RiskSummary.tsx:38). The model keeps only the level's colour class, as `labelColor`.

## Model

| member | source | states |
|---|---|---|
| RiskCalculation.Min | src/utils/riskCalculation.ts:14-18 | `Math.min(a, b)` is one of a and b, and at most both |
| RiskCalculation.Max | src/utils/riskCalculation.ts:14-18 | `Math.max(a, b)` is one of a and b, and at least both |
| RiskCalculation.Round | src/utils/riskCalculation.ts:18 | `Math.round` yields the unique integer n with n - 1/2 <= x < n + 1/2 (halves go up) |
| RiskCalculation.SubScore | src/utils/riskCalculation.ts:14 | the sub-score lies in [0,1]; it is exactly 0 when value <= threshold/2 and exactly 1 when value >= threshold |
| RiskCalculation.RatioBounds | src/utils/riskCalculation.ts:14 | for a positive threshold, value/threshold is at most 1/2 at or below half the threshold and at least 1 at or above it |
| RiskCalculation.Contribution | src/utils/riskCalculation.ts:14-15 | a factor adds between 0 and its weight (weight >= 0); exactly 0 at or below half the threshold; exactly the weight at or above the threshold |
| RiskCalculation.SubScoreMonotone | src/utils/riskCalculation.ts:14 | for a positive threshold a larger value never lowers the sub-score |
| RiskCalculation.Finish | src/utils/riskCalculation.ts:18 | for every draw r in [0,1) the result lies in [5,95]; when base = round(100·sum) is in [10,90] it lies in [base-5, base+5); base >= 100 gives exactly 95 and base <= 0 exactly 5 |
| RiskCalculation.Sum | src/utils/riskCalculation.ts:11-16 | with non-negative weights the accumulated weighted sub-scores lie between 0 and the total weight |
| RiskCalculation.Risk | src/utils/riskCalculation.ts:18 | the returned risk lies in [5,95]; a weighted sum of 1 or more gives exactly 95 and a sum of 0 exactly 5, whatever the draw |
| RiskCalculation.CalculateRisk | src/utils/riskCalculation.ts:10-19 | the accumulator loop yields exactly `Risk(factors, r)`, the rounded, jittered and clamped weighted sum, and a value in [5,95] |
| RiskCalculation.SumAppend | src/utils/riskCalculation.ts:13-16 | adding one more factor adds exactly its contribution, so the left-to-right accumulator equals the recursive sum |
| RiskCalculation.SumConcat | src/utils/riskCalculation.ts:13-16 | the sum over two factor lists laid end to end is the sum of their sums |
| RiskCalculation.SumSaturated | src/utils/riskCalculation.ts:13-16 | when every factor is at or above its threshold the sum equals the total weight |
| RiskCalculation.SumZero | src/utils/riskCalculation.ts:13-16 | when every factor is at or below half its threshold the sum is 0 |
| RiskCalculation.SumSaturatedThenZero | src/utils/riskCalculation.ts:13-16 | saturated factors followed by factors at or below half their threshold sum to the saturated factors' weight |
| RiskCalculation.FlagFactor | src/utils/riskCalculation.ts:28 | a yes/no answer becomes a factor with threshold 0.5 and the given weight, whose value is at or above the threshold for yes and at or below half of it for no (also used at lines 35-36 and 43-44, inverted for the obesity smoker flag) |
| RiskCalculation.FlagContribution | src/utils/riskCalculation.ts:28 | a boolean factor encoded 1/0 against threshold 0.5 contributes exactly its weight or exactly 0 |
| RiskCalculation.DiabetesFactors | src/utils/riskCalculation.ts:22-29 | the diabetes table has six factors, all with positive thresholds and non-negative weights |
| RiskCalculation.HeartFactors | src/utils/riskCalculation.ts:31-37 | the heart-disease table has five factors, all with positive thresholds and non-negative weights |
| RiskCalculation.ObesityFactors | src/utils/riskCalculation.ts:39-45 | the obesity table has five factors, all with positive thresholds and non-negative weights |
| RiskCalculation.DiabetesFlags | src/utils/riskCalculation.ts:28 | family history adds exactly 0.2 to the diabetes sum, or nothing |
| RiskCalculation.HeartFlags | src/utils/riskCalculation.ts:35-36 | smoking adds exactly 0.25 and family history exactly 0.1 to the heart-disease sum, or nothing |
| RiskCalculation.ObesityFlags | src/utils/riskCalculation.ts:43-44 | NOT smoking adds exactly 0.05 to the obesity sum (a smoker adds nothing); gender exactly "female" adds 0.1 |
| RiskCalculation.DiabetesWeights | src/utils/riskCalculation.ts:22-29 | the six diabetes weights total 1.20 |
| RiskCalculation.HeartWeights | src/utils/riskCalculation.ts:31-37 | the five heart-disease weights total 1.00 |
| RiskCalculation.ObesityWeights | src/utils/riskCalculation.ts:39-45 | the five obesity weights total 1.00 |
| RiskCalculation.MockResults | src/utils/riskCalculation.ts:47-84 | exactly three results named "Type 2 Diabetes", "Heart Disease", "Obesity" in that order, each with 5 recommendations and a risk in [5,95] |
| RiskCalculation.GenerateMockResults | src/utils/riskCalculation.ts:21-85 | the three `calculateRisk` calls and the fixed list produce exactly `MockResults` for the three draws |
| RiskCalculation.DiabetesSaturated | src/utils/riskCalculation.ts:22-29 | a record saturating every diabetes factor (family history included) scores exactly 95 for every draw |
| RiskCalculation.DiabetesMinimal | src/utils/riskCalculation.ts:22-29 | a record at or below half of every diabetes threshold, without family history, scores exactly 5 for every draw |
| RiskCalculation.HeartSaturated | src/utils/riskCalculation.ts:31-37 | a smoker with family history saturating every heart factor scores exactly 95 for every draw |
| RiskCalculation.ObesityMaleSmoker | src/utils/riskCalculation.ts:39-45 | a non-female smoker with BMI >= 30, skin thickness >= 35 and age >= 40 has obesity base 85 (inverted smoker flag adds nothing), so the result lies in [80,90) |
| RiskLevels.GetRiskLevel | src/components/results/RiskCard.tsx:13-18 | the level names exactly the band the risk lies in (Low < 25 <= Moderate < 50 <= High < 75 <= Very High), and `color`/`bgColor` are "text-X"/"bg-X" with the same X |
| RiskLevels.BandOf | src/components/results/RiskSummary.tsx:10-15 | every risk value lies in a band, and that band is the one `getRiskLevel` names |
| RiskLevels.BandsPartition | src/components/results/ActionButtons.tsx:9-14 | no risk value lies in two bands |
| RiskLevels.LevelMonotone | src/components/results/RiskSummary.tsx:10-15 | a larger risk never yields a lower level |
| RiskLevels.CutPointsLeftClosed | src/components/results/RiskCard.tsx:14-17 | 25 is Moderate, 50 is High and 75 is Very High |
| RiskLevels.RiskLabel | src/components/results/RiskCard.tsx:36 | the label `{level} Risk ({risk}%)` begins with the name of the risk's band, ends with "%)", and is 9 characters longer than the band name and the formatted risk together |
| RiskLevels.RiskLabelShowsRisk | src/components/results/RiskCard.tsx:36 | between the band name and "%)" the label holds exactly " Risk (" followed by the formatted risk value (the same text at RiskSummary.tsx:39 and ActionButtons.tsx:45) |
| RiskLevels.BandNameInjective | src/components/results/RiskCard.tsx:13-18 | no two levels have the same name |
| RiskLevels.GetRiskIcon | src/pages/Results.tsx:156-161 | CheckCircle iff Low, Info iff Moderate, AlertTriangle iff High or Very High; the icon carries the level's text colour |
| RiskCard.BorderColor | src/components/results/RiskCard.tsx:31 | for a class starting with "text-", the border colour is "var(--X)" where X is the class with that prefix removed |
| RiskCard.RenderCard | src/components/results/RiskCard.tsx:27-53 | the card shows the name, description and level label, a border naming the level's colour suffix, and every recommendation in order keyed by its index |
| RiskSummary.IndicatorAlwaysSet | src/components/results/RiskSummary.tsx:45 | the progress indicator colour is never undefined: it is "var(--X)" for the level's colour suffix X, the same colour as the card border |
| RiskSummary.IndicatorColor | src/components/results/RiskSummary.tsx:45 | the indicator colour is defined exactly when the background class starts with "bg-", and is then "var(--X)" for the rest X of the class |
| RiskSummary.Row | src/components/results/RiskSummary.tsx:29-47 | one result's row is keyed and titled by its name, carries its level's text colour and label text, shows its risk as progress, and has a defined indicator colour "var(--X)" for the level's colour suffix X |
| RiskSummary.SummaryRows | src/components/results/RiskSummary.tsx:28-49 | exactly one row per result, in input order, with that result's name as key and title, the level's text colour on the label, the label text, the risk as progress value and a defined indicator colour |
| Strings.Join | src/components/results/ActionButtons.tsx:46 | `[].join(sep)` is ""; a non-empty join begins with the first element |
| Strings.StartsWith | src/components/results/RiskSummary.tsx:45 | `s.startsWith(p)` holds exactly when s is p followed by the rest of s |
| Strings.ReplaceFirst | src/components/results/RiskCard.tsx:31 | `s.replace(p, rep)` with a leading occurrence puts rep in place of that prefix; with no occurrence anywhere it returns s unchanged |
| Strings.RemovePrefix | src/components/results/RiskSummary.tsx:45 | `replace` of a leading pattern with "" yields the rest of the string |
| Strings.JoinAt | src/components/results/ActionButtons.tsx:46 | in `xs.join(sep)` element i sits at the offset given by the elements before it, each followed by one separator |
| Strings.JoinSeparatorAfter | src/components/results/ActionButtons.tsx:46 | in `xs.join(sep)` a separator follows every element but the last |
| Strings.JoinLength | src/components/results/ActionButtons.tsx:46 | in `xs.join(sep)` nothing follows the last element |
| Strings.PrefixedJoinAt | src/components/results/ActionButtons.tsx:48 | behind a header, element i of a join sits at the header's length plus its offset in the join |
| Strings.PrefixedSeparatorAfter | src/components/results/ActionButtons.tsx:48 | behind a header, the separator after element i (not the last) sits at the header's length plus the element's end offset |
| Strings.OffsetNext | src/components/results/ActionButtons.tsx:46 | each element of a join starts one element and one separator after the previous one |
| ActionButtons.Blocks | src/components/results/ActionButtons.tsx:43-46 | one report block per result, in input order |
| ActionButtons.BlockHead | src/components/results/ActionButtons.tsx:45 | the part of a block before its recommendations opens with the condition's name |
| ActionButtons.BlockHeadLayout | src/components/results/ActionButtons.tsx:45 | after the name the head holds ": ", the risk label, a newline, the description, and "\n\nRecommendations:\n", each at its offset, and nothing else |
| ActionButtons.Block | src/components/results/ActionButtons.tsx:45 | a block opens with its head, and its length is the head's plus the joined recommendations' plus 2 |
| ActionButtons.BlockLayout | src/components/results/ActionButtons.tsx:45 | right after the head a block holds exactly the recommendations joined by "\n", and its last two characters are "\n\n" |
| ActionButtons.Report | src/components/results/ActionButtons.tsx:46-48 | the downloaded text opens with the header "ChronoDetect Health Assessment\n\n" |
| ActionButtons.ReportBlockAt | src/components/results/ActionButtons.tsx:43-48 | block i of the report is the block of result i, at the offset of the header plus the earlier blocks and separators |
| ActionButtons.ReportSeparatorAfter | src/components/results/ActionButtons.tsx:46 | "---\n\n" follows every block except the last |
| ActionButtons.ReportEnds | src/components/results/ActionButtons.tsx:46-48 | the last block ends the report: nothing follows it |
| ActionButtons.LoginPrompt | src/components/results/ActionButtons.tsx:27-75 | every logged-out error message begins with the 16 characters "Please login to " and has more text after them |
| ActionButtons.EmptyReport | src/components/results/ActionButtons.tsx:46-48 | with no results the report is the header alone |
| ActionButtons.BlockRecommendation | src/components/results/ActionButtons.tsx:45 | each block lists its recommendations one per line after "Recommendations:\n", in input order |
| ActionButtons.Handle | src/components/results/ActionButtons.tsx:23-80 | when logged out every action only raises its login-prompt error toast; when logged in no action errors, only Download saves a file (named ChronoDetect-Health-Report.txt, holding the report) and only Print opens the print dialog |
| ResultsPage.Results.constructor | src/pages/Results.tsx:35 | the page starts with no results |
| ResultsPage.Results.GenerateMockResults | src/pages/Results.tsx:64-145 | the page's copy stores exactly the engine's three results, each with a risk in [5,95] |

## Left out

- `Math.random` is not modelled as a source of randomness. Each draw is a parameter in [0,1), one per `calculateRisk` call.
- IEEE-754 floating point is not modelled. Arithmetic is exact on reals, so binary rounding artefacts are not captured. For example, 0.35 + 0.15 + … may not sum exactly in doubles.
- JavaScript's number-to-string conversion of `risk` is a parameter `format`, not a definition.
- Division by a zero threshold (JavaScript gives Infinity or NaN) is excluded by `WellFormed`. Every call site passes a positive constant.
- The form's slider bounds (src/pages/Screen.tsx) are not used as preconditions. The properties proved hold for every record.
- The effect plumbing of the results page is not modelled: `sessionStorage`, `JSON.parse`, `navigate`, the loading flag, and `setScreeningData`.
- The browser side of the actions is not modelled: the `Blob` and object URL, the DOM anchor, `window.print` and the toast library. Only what they are asked to do is modelled, as `Effect` values in order.
- Page markup, navigation and styling are not modelled, and neither is the progress bar's CSS transform. This covers About, Index, NotFound, Navbar, Footer, Screen and progress.tsx.
- src/lib/constants.ts is not modelled. Its disease descriptions duplicate the literal text in `generateMockResults`.
- RiskSummary.tsx:35 renders the `getRiskLevel` object itself as a React child. That is a rendering defect and is not modelled as behaviour.
- The summary rows and detailed cards inside src/pages/Results.tsx (202-258) are not modelled separately. They have the same shape as `RiskSummary.SummaryRows` plus the `GetRiskIcon` icon, and `RiskCard.RenderCard`.
