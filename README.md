# Algerian forest fire prediction — verified model of the dashboard and its helpers

This project models, in Dafny, the behaviour of the web front end and two small
back-end helpers of the Algerian forest fire prediction application:

- the **dashboard chart** (`DashboardChart.jsx`), the main part. It turns a list of
  `{x, y, label, value}` points into chart geometry: value sanitising, the min/max
  scale, the value-to-pixel mapping, the line layout (path, area, markers,
  gridlines, axis labels), the bar layout (slots, bars anchored at zero, value
  labels, ticks), the dispatcher between the two, and the component's
  `chartData` state;
- the **dashboard page** (`dashboard/page.js`): the trend series over the first
  five saved predictions, the risk-level histogram, the summary figures and the
  risk styles;
- the **prediction form** (`Form.jsx`): its fields, field updates, the
  submission's state changes and the four-tier grading of the result;
- the **result modal** (`PredictionResultModal.jsx`): the risk badge and advice,
  and the open/close state with its three-step entrance animation;
- the **`/api/predict` route**: field validation and the mock response;
- **model selection** (`select_best_model` in `Backend/src/utils.py`) and the
  trainer's acceptance threshold;
- the **requirements reader** (`get_requirements` in `Backend/setup.py`).

JavaScript values are modelled by `Js.Value` (undefined, null, booleans, numbers,
NaN, strings), with truthiness, `||`, `parseFloat`, `Number`, `<` against a
number, loose `==` against a number, and `Math.round`. Numbers are Dafny `real`s.
String-to-number parsing is a parameter (`text: string -> Option<real>`, `None`
for NaN), so every result holds for any parser. A single-point line chart
divides 0 by 0 in the source; the model keeps that as `JsNumber.NotANumber`.
SVG paths are sequences of commands (`MoveTo`, `LineTo`, `ClosePath`), not text.
The source writes each x coordinate of the line and area paths with a `%` unit
(`Frontend/src/Components/DashboardChart.jsx:67` and `:82`). SVG path data has no
units, so a browser rejects those `d` strings and draws neither the line nor the
area. The model keeps the intended coordinates and does not capture that rejection.

State the source keeps in React components is held in classes with `modifies`
clauses: `DashboardChart.ChartView`, `DashboardPage.DashboardState`,
`PredictionForm.FormState` and `ResultModal.ModalState`. The risk-count reduce
and the model-selection loop are methods with loop invariants, each proved
against a specification function.

Some behaviours the model makes explicit:

- each bar starts 2 percentage points of the chart width into its slot and is 4
  points narrower than the slot (`DashboardChart.jsx:178-180`). From 25 bars on,
  a bar's width is zero or negative (`ChartBar.BarRectWidthPositive`);
- `getSafeValue` replaces only NaN with 0 (`DashboardChart.jsx:13-16`);
- a line chart with one point computes its x as `0 / 0`
  (`DashboardChart.jsx:65`), so the point has no x position (NaN);
- the modal's advice is always the default sentence. `getRiskAdvice` is given
  "LOW CHANCE" or "HIGH CHANCE", never "LOW" or "EXTREME";
- the form grades a prediction that converts to NaN (for example `undefined`) as
  Extreme, and shows the panel for it;
- the route refuses a genuine 0 in any of its four fields;
- blank lines in a requirements file are kept as empty requirements.

## Model

| member | source | states |
|---|---|---|
| Js.Truthy | Frontend/src/app/api/predict/route.js:9 | the falsy values are exactly undefined, null, false, 0, NaN and the empty string |
| Js.Or | Frontend/src/Components/DashboardChart.jsx:66 | `a \|\| b` is one of its operands, truthy exactly when either is, and `a` whenever `a` is truthy |
| Js.ParseFloat | Frontend/src/Components/DashboardChart.jsx:14 | a number parses to itself, a string through the text parser, and no other kind of value parses |
| Js.ToNumber | Frontend/src/Components/Form.jsx:88-102 | NaN exactly for undefined, NaN and unparsable strings; null and false are 0, true is 1, a number is itself |
| Js.LessThan | Frontend/src/Components/Form.jsx:88-102 | a value converting to NaN is never below any bound |
| Js.LessThanUpward | Frontend/src/Components/Form.jsx:88-102 | a value below a bound is below every larger bound |
| Js.LooseEqualsNumber | Frontend/src/Components/PredictionResultModal.jsx:29 | null, undefined and NaN equal no number; a number equals exactly itself |
| Js.LooseEqualsUnique | Frontend/src/Components/PredictionResultModal.jsx:29 | a value loosely equals at most one number |
| Js.Round | Frontend/src/Components/DashboardChart.jsx:137 | `Math.round` gives an integer within one half of its argument (halves go up) |
| ChartScale.SafeValue | Frontend/src/Components/DashboardChart.jsx:13-16 | the parsed number when parsing succeeds, 0 exactly when it yields NaN; nothing else is replaced |
| ChartScale.SafeValueIdempotent | Frontend/src/Components/DashboardChart.jsx:13-16 | sanitising a sanitised value changes nothing, whatever the parser |
| ChartScale.MaxOf | Frontend/src/Components/DashboardChart.jsx:27 | `Math.max` of a non-empty list bounds every element and is one of them |
| ChartScale.MinOf | Frontend/src/Components/DashboardChart.jsx:28 | `Math.min` of a non-empty list is below every element and is one of them |
| ChartScale.Calculations | Frontend/src/Components/DashboardChart.jsx:24-31 | null exactly for an empty dataset; otherwise the values are the sanitised `y \|\| value`, all between min and max, both attained, and range = max - min >= 0 |
| ChartScale.ChartPosition | Frontend/src/Components/DashboardChart.jsx:18-22 | a flat scale centres the value at height/2; otherwise max maps to 0 and min maps to the height |
| ChartScale.ChartPositionWithin | Frontend/src/Components/DashboardChart.jsx:18-22 | a value inside the scale lands inside [0, height] |
| ChartScale.ChartPositionNonIncreasing | Frontend/src/Components/DashboardChart.jsx:18-22 | a larger value is never drawn lower: the mapping is non-increasing |
| ChartScale.Gridlines | Frontend/src/Components/DashboardChart.jsx:49-60 | five gridlines, from the top edge to the bottom edge in equal quarter steps |
| ChartScale.LabelText | Frontend/src/Components/DashboardChart.jsx:120 | `label \|\| x \|\| generated`: a shown field is truthy and is the label or x, and the generated text appears exactly when both are falsy |
| ChartLine.LineX | Frontend/src/Components/DashboardChart.jsx:65 | x is NaN exactly when there is one point; otherwise it lies in [0, 100], 0 for the first point and 100 for the last |
| ChartLine.LineXIncreasing | Frontend/src/Components/DashboardChart.jsx:65 | later points lie strictly further right |
| ChartLine.LinePath | Frontend/src/Components/DashboardChart.jsx:63-68 | one command per point, in input order; a move exactly at index 0 and line-tos after; each at the point's x and mapped y |
| ChartLine.AreaPath | Frontend/src/Components/DashboardChart.jsx:77-82 | the line path, then two more line-tos along the bottom edge and one close at the very end |
| ChartLine.RenderLine | Frontend/src/Components/DashboardChart.jsx:33-143 | the placeholder exactly for an empty dataset; otherwise an area three commands longer than the line (the line's own shape is stated by `ChartLine.RenderLineParts` and `ChartLine.LinePathShape`) |
| ChartLine.Markers | Frontend/src/Components/DashboardChart.jsx:88-101 | one marker per point, at the point's x and mapped y |
| ChartLine.LineXLabels | Frontend/src/Components/DashboardChart.jsx:104-123 | one label per point, 20 px under the chart; the last at 98%, otherwise the first at 2%, the rest under their points; text is label, x or `Day i+1` |
| ChartLine.LineYLabels | Frontend/src/Components/DashboardChart.jsx:126-140 | five labels, label i showing `round(max - i/4 * range)` 4 px under gridline i |
| ChartLine.RenderLineParts | Frontend/src/Components/DashboardChart.jsx:33-143 | a non-empty dataset is drawn from its scale as gridlines, path, area, markers and both label rows |
| ChartLine.PathClimbs | Frontend/src/Components/DashboardChart.jsx:63-101 | for any scale, the line path has a MoveTo followed by one LineTo per further point, each marker sits on its vertex, and with two or more points x runs strictly upward from 0% to 100% |
| ChartLine.LinePathShape | Frontend/src/Components/DashboardChart.jsx:63-101 | path and markers have one entry per point and the markers sit on the vertices; with two or more points x climbs strictly from 0% to 100%, and a lone point has no x |
| ChartLine.LineVertexHeights | Frontend/src/Components/DashboardChart.jsx:63-68 | vertex i is at the mapped value of point i |
| ChartLine.AreaClosesLine | Frontend/src/Components/DashboardChart.jsx:77-82 | the area path is the line path followed by `L 100% h`, `L 0 h`, `Z` |
| ChartLine.LineWithinChart | Frontend/src/Components/DashboardChart.jsx:63-68 | every vertex lies between the top and the bottom edge, for a non-negative height |
| ChartLine.FlatLineCentred | Frontend/src/Components/DashboardChart.jsx:63-68 | when all values are equal, every vertex is at half the height |
| ChartLine.LineTicksSpanScale | Frontend/src/Components/DashboardChart.jsx:126-140 | the top label shows round(max), the bottom one round(min), and labels never increase downwards |
| ChartLine.LineTickStep | Frontend/src/Components/DashboardChart.jsx:126-137 | one step down the axis never increases the label |
| ChartLine.LineYAxis | Frontend/src/Components/DashboardChart.jsx:126-140 | the chart's gridlines and y labels, from round(max) at the top to round(min) at the bottom |
| ChartLine.LineXAxis | Frontend/src/Components/DashboardChart.jsx:104-123 | the chart's x labels: positions at 98%, 2% or the point's x, and the label fallback chain |
| ChartLine.RisingThreePoints | Frontend/src/Components/DashboardChart.jsx:63-68 | values 10, 20, 30 on a 300 px chart are drawn at y 300, 150, 0 and x 0, 50, 100 |
| ChartBar.BarHeight | Frontend/src/Components/DashboardChart.jsx:171 | 0 when the maximum is 0; the maximum gets the full height and 0 gets none |
| ChartBar.Bar | Frontend/src/Components/DashboardChart.jsx:169-196 | a bar stands on the bottom edge, is 4 points narrower than its slot, has its value label 10 px above its top and at the exact centre of its slot (slot start plus half the slot width) |
| ChartBar.RenderBar | Frontend/src/Components/DashboardChart.jsx:145-232 | the placeholder exactly for an empty dataset; otherwise one bar and x label per point, five gridlines and y labels |
| ChartBar.Bars | Frontend/src/Components/DashboardChart.jsx:169-196 | one bar per point, in input order |
| ChartBar.BarXLabels | Frontend/src/Components/DashboardChart.jsx:199-212 | one label per point, centred on its slot, text label, x or `Category i+1` |
| ChartBar.BarYLabels | Frontend/src/Components/DashboardChart.jsx:215-229 | five labels, label i showing `round(i/4 * max)` at `h - i/4 * h + 4` |
| ChartBar.RenderBarParts | Frontend/src/Components/DashboardChart.jsx:145-232 | a non-empty dataset is drawn from its scale as gridlines, bars and both label rows |
| ChartBar.SlotsTileWidth | Frontend/src/Components/DashboardChart.jsx:150 | n slots of 100/n percent fill the width exactly, and each slot ends by 100% |
| ChartBar.BarAt | Frontend/src/Components/DashboardChart.jsx:169-196 | bar i starts 2 points into slot i, is 4 points narrower than the slot, stands on the bottom edge, and shows its rounded value 10 px above its top |
| ChartBar.BarLayout | Frontend/src/Components/DashboardChart.jsx:169-212 | the whole bar row: slot positions, widths, value labels and category labels centred on each slot |
| ChartBar.BarRectWidthPositive | Frontend/src/Components/DashboardChart.jsx:178-180 | a bar rectangle has positive width exactly when there are fewer than 25 bars |
| ChartBar.BarHeightWithin | Frontend/src/Components/DashboardChart.jsx:171 | a value between 0 and the maximum gives a bar between 0 and the height |
| ChartBar.BarsAnchored | Frontend/src/Components/DashboardChart.jsx:169-181 | every bar ends at the bottom edge; all bars are flat when the maximum is 0; otherwise the maximum's bar has full height |
| ChartBar.BarsWithinChart | Frontend/src/Components/DashboardChart.jsx:169-181 | every non-negative value's bar fits inside the chart |
| ChartBar.BarYAxis | Frontend/src/Components/DashboardChart.jsx:215-229 | labels run from 0 at the bottom to round(max) at the top and never decrease upwards when max >= 0 |
| ChartBar.BarTickStep | Frontend/src/Components/DashboardChart.jsx:215-226 | one step up the axis never decreases the label when max >= 0 |
| ChartBar.ZeroToHundredBars | Frontend/src/Components/DashboardChart.jsx:169-181 | values 0, 50, 100 on a 100 px chart give bars 0, 50 and 100 px tall |
| DashboardChart.RenderChart | Frontend/src/Components/DashboardChart.jsx:234-243 | the placeholder exactly for an empty dataset; "bar" selects the bar layout and every other type the line layout |
| DashboardChart.OneShapePerPoint | Frontend/src/Components/DashboardChart.jsx:234-243 | either variant draws one vertex and marker, or one bar, per point |
| DashboardChart.ChartView.constructor | Frontend/src/Components/DashboardChart.jsx:5 | the held data starts empty |
| DashboardChart.ChartView.DataChanged | Frontend/src/Components/DashboardChart.jsx:7-11 | a present non-empty dataset replaces the held one; a missing or empty one leaves it, so data once held is never lost |
| DashboardChart.ChartView.View | Frontend/src/Components/DashboardChart.jsx:234-243 | the placeholder is shown exactly while no data is held |
| DashboardChart.ViewAfterData | Frontend/src/Components/DashboardChart.jsx:5-11 | the first render shows the placeholder; after a non-empty dataset, no later update brings it back |
| DashboardPage.Last5 | Frontend/src/app/dashboard/page.js:53 | min(5, n) records, the first five in reverse order |
| DashboardPage.Trend | Frontend/src/app/dashboard/page.js:55-65 | point i is at x = i+1 with the chosen field of record i of the reversed slice, labelled by its date |
| DashboardPage.TrendPoints | Frontend/src/app/dashboard/page.js:53-65 | both trends have min(5, n) points; point i shows record k-1-i's temperature or score, labelled by its date |
| DashboardPage.TrendLabelsNeverGenerated | Frontend/src/app/dashboard/page.js:55-65 | trend points always have a truthy x, so the chart never falls back to generated label text for them |
| DashboardPage.FirstOccurrences | Frontend/src/app/dashboard/page.js:67-76 | the histogram's keys: exactly the risks that occur, each once |
| DashboardPage.FirstOccurrencesOrdered | Frontend/src/app/dashboard/page.js:67-76 | the histogram keys are ordered by where each risk first occurs in the records |
| DashboardPage.KeyJoinsAtFirstIndex | Frontend/src/app/dashboard/page.js:67-76 | walking the records in order, a risk is added to the key list at the record where it first occurs and never again |
| DashboardPage.RiskDistribution | Frontend/src/app/dashboard/page.js:67-76 | at most one entry per record and none exactly without records; each entry's x and label are the same risk string, one of the records' risks |
| DashboardPage.CountsSumToLength | Frontend/src/app/dashboard/page.js:67-70 | the counts of the distinct risks add up to the number of records |
| DashboardPage.RiskDistributionFacts | Frontend/src/app/dashboard/page.js:67-76 | one entry per distinct risk, with x == label == risk, a count of at least 1 equal to its occurrences, counts summing to n |
| DashboardPage.RiskDistributionOrder | Frontend/src/app/dashboard/page.js:67-76 | the histogram entries appear in the order their risks first occur in the records |
| DashboardPage.CountAtLeastOne | Frontend/src/app/dashboard/page.js:67-76 | every histogram entry is drawn at a value of at least 1 |
| DashboardPage.CountRisks | Frontend/src/app/dashboard/page.js:67-70 | the reduce: keys in first-occurrence order, and each count equal to that risk's number of occurrences |
| DashboardPage.DeriveChartData | Frontend/src/app/dashboard/page.js:49-79 | empty series without records; otherwise the two trends and the histogram |
| DashboardPage.RiskBarsVisible | Frontend/src/app/dashboard/page.js:294-299 | drawn as the bar chart, the histogram of any non-empty list has one bar per risk, each of positive height within the chart |
| DashboardPage.SumBetween | Frontend/src/app/dashboard/page.js:89 | a sum of n values lies between n times a lower and n times an upper bound |
| DashboardPage.MeanWithin | Frontend/src/app/dashboard/page.js:89 | the mean lies within any bounds of the values |
| DashboardPage.SummaryStats | Frontend/src/app/dashboard/page.js:82-93 | all zero without records; otherwise total = n and lowest <= average <= highest, where highest and lowest bound every score and are scores |
| DashboardPage.RiskColor | Frontend/src/app/dashboard/page.js:96-109 | gray text exactly for a risk other than LOW, MEDIUM, HIGH and EXTREME |
| DashboardPage.RiskBgColor | Frontend/src/app/dashboard/page.js:111-124 | gray background exactly for a risk other than LOW, MEDIUM, HIGH and EXTREME |
| DashboardPage.RiskStyles | Frontend/src/app/dashboard/page.js:96-124 | the four known levels get distinct text and background classes; everything else gets gray; the two styles group risks identically |
| DashboardPage.DashboardState.constructor | Frontend/src/app/dashboard/page.js:7-8 | no records, loading |
| DashboardPage.DashboardState.LoadSaved | Frontend/src/app/dashboard/page.js:35-46 | a saved list replaces the records; nothing saved or a failed read keeps them; loading ends either way |
| DashboardPage.DashboardState.ChartData | Frontend/src/app/dashboard/page.js:49-79 | the page's series are empty without records, and its histogram is the held records' |
| PredictionForm.TierOf | Frontend/src/Components/Form.jsx:97-103 | Low exactly when the prediction is below 5; a prediction converting to NaN is Extreme |
| PredictionForm.PanelColour | Frontend/src/Components/Form.jsx:86-95 | the colour chain gives the colour of the prediction's tier |
| PredictionForm.PanelText | Frontend/src/Components/Form.jsx:97-103 | the text chain gives the text of the prediction's tier |
| PredictionForm.PanelAgrees | Frontend/src/Components/Form.jsx:86-103 | the colour chain and the text chain pick the same tier, and the four tiers look different |
| PredictionForm.TierBands | Frontend/src/Components/Form.jsx:97-103 | below 5 Low, [5, 15) Moderate, [15, 30) High, 30 or more or NaN Extreme, each as an if-and-only-if |
| PredictionForm.TierMonotone | Frontend/src/Components/Form.jsx:97-103 | a larger score never gets a lower tier |
| PredictionForm.FormState.constructor | Frontend/src/Components/Form.jsx:4-18 | exactly the nine fields, all empty; no prediction, no error, not loading |
| PredictionForm.FormState.HandleChange | Frontend/src/Components/Form.jsx:20-25 | the named field takes the value and every other field keeps its own |
| PredictionForm.FormState.RequestBody | Frontend/src/Components/Form.jsx:33-37 | the nine fields and their values, in declaration order |
| PredictionForm.FormState.BeginSubmit | Frontend/src/Components/Form.jsx:29-37 | error and prediction cleared, loading on |
| PredictionForm.FormState.FinishSubmit | Frontend/src/Components/Form.jsx:39-49 | an ok answer stores its prediction; a failed one its error or "Something went wrong"; a throw the message; loading off |
| PredictionForm.FormState.HandleSubmit | Frontend/src/Components/Form.jsx:27-50 | the whole submission, with the same outcomes |
| PredictionForm.FormState.ShowsPanel | Frontend/src/Components/Form.jsx:84 | the panel is hidden for null and shown for undefined and NaN |
| PredictionForm.FormState.ShowsError | Frontend/src/Components/Form.jsx:106 | no error line for null, undefined or an empty message; one for any non-empty message |
| PredictionForm.FormState.CanSubmit | Frontend/src/Components/Form.jsx:75-81 | the button is disabled while loading |
| PredictionForm.SubmitShows | Frontend/src/Components/Form.jsx:75-110 | after a submission the button is enabled; a failed answer shows the error line and no panel; an ok one shows no error line, and shows the panel unless the prediction is null |
| ResultModal.RiskLevel | Frontend/src/Components/PredictionResultModal.jsx:28-45 | "LOW CHANCE" exactly when the prediction loosely equals 1, otherwise "HIGH CHANCE" |
| ResultModal.RiskAdvice | Frontend/src/Components/PredictionResultModal.jsx:47-56 | the default sentence exactly for levels other than "LOW" and "EXTREME" |
| ResultModal.AdviceAlwaysDefault | Frontend/src/Components/PredictionResultModal.jsx:183 | every prediction is shown the default advice |
| ResultModal.LowBadgeCases | Frontend/src/Components/PredictionResultModal.jsx:29 | 1, true and a string converting to 1 get the low badge; null, undefined, 0 and NaN the high one |
| ResultModal.StepsAfter | Frontend/src/Components/PredictionResultModal.jsx:13-15 | the steps still to come after step k are k+1 … 3 |
| ResultModal.ModalState.constructor | Frontend/src/Components/PredictionResultModal.jsx:5-26 | the first effect run: open shows step 0 with steps 1, 2, 3 scheduled; closed shows nothing |
| ResultModal.ModalState.SetOpen | Frontend/src/Components/PredictionResultModal.jsx:8-26 | nothing changes unless the prop changes; opening shows step 0 with 1, 2, 3 scheduled; closing hides at step 0 and cancels the timers |
| ResultModal.ModalState.Tick | Frontend/src/Components/PredictionResultModal.jsx:13-15 | the next scheduled step is set, one above the current; with none scheduled nothing changes |
| ResultModal.ModalState.Renders | Frontend/src/Components/PredictionResultModal.jsx:60 | in a consistent state the modal renders exactly while open |
| ResultModal.ModalState.BackdropShown | Frontend/src/Components/PredictionResultModal.jsx:67 | a shown backdrop belongs to a rendered modal |
| ResultModal.ModalState.PanelShown | Frontend/src/Components/PredictionResultModal.jsx:75 | the panel is never scaled in before the backdrop's step 1; the predicate itself scales it in exactly from step 2 on |
| ResultModal.ModalState.ContentShown | Frontend/src/Components/PredictionResultModal.jsx:91-106 | content is shown only at the last step, with no timer left |
| ResultModal.Layered | Frontend/src/Components/PredictionResultModal.jsx:67-106 | content is shown only over a shown panel, and the panel only over a shown backdrop |
| ResultModal.OpenThenClose | Frontend/src/Components/PredictionResultModal.jsx:8-60 | opening renders at step 0; everything is shown exactly after three timer events; closing renders nothing |
| PredictRoute.Post | Frontend/src/app/api/predict/route.js:3-31 | 500 for an unreadable or null body; for any other body 400 exactly when one of the four fields is falsy and 200 exactly when all four are truthy, the 200 coming with "High" exactly when the draw exceeds 0.5, confidence equal to the draw times 100 (so in [0, 100) for a draw in [0, 1)), and the given timestamp |
| PredictRoute.Get | Frontend/src/app/api/predict/route.js:33-35 | always 200 with the fixed message |
| PredictRoute.ZeroIsMissing | Frontend/src/app/api/predict/route.js:9-14 | a 0 field is refused although present; four non-zero numbers are accepted |
| PredictRoute.ExtraFieldsIgnored | Frontend/src/app/api/predict/route.js:6-14 | fields other than the four never change the response |
| ModelSelection.SortDescending | Backend/src/utils.py:50 | the sorted report is ordered by score, highest first |
| ModelSelection.SortPermutes | Backend/src/utils.py:50 | the sorted report holds exactly the report's entries |
| ModelSelection.HeadIsFirstBest | Backend/src/utils.py:50-53 | the head of the sorted report is the earliest entry with the top score |
| ModelSelection.BuildReport | Backend/src/utils.py:29-46 | one entry per candidate, in input order, holding its own estimator and search result; fails exactly when some search fails |
| ModelSelection.SelectBestModel | Backend/src/utils.py:27-57 | fails exactly for no candidates or a failed search; otherwise the estimator, score and parameters of one candidate, whose score is the highest and which is the earliest with it |
| ModelSelection.Accept | Backend/src/components/model_trainer.py:90-91 | a best score below 0.6 is refused; any other passes unchanged |
| Setup.SplitLines | Backend/setup.py:6 | lines contain no line breaks; empty text has no lines |
| Setup.SplitAtNewline | Backend/setup.py:6 | a line ended by `\n` is split off whole |
| Setup.SplitAtCrLf | Backend/setup.py:6 | a line ended by `\r\n` is split off whole; the pair is one break |
| Setup.TrailingBreak | Backend/setup.py:6 | a final break starts no empty line |
| Setup.SplitJoin | Backend/setup.py:6 | splitting text written one line per `\n` gives back its lines |
| Setup.Keep | Backend/setup.py:7 | a line is kept exactly when it is empty or its first character is neither `#` nor `-` |
| Setup.Requirements | Backend/setup.py:7 | every kept line starts with neither `#` nor `-` and comes from the input; every such input line is kept |
| Setup.RequirementsInOrder | Backend/setup.py:7 | the kept lines are a subsequence of the input, in order |
| Setup.RequirementsIdempotent | Backend/setup.py:7 | filtering the result again changes nothing |
| Setup.RequirementsAppend | Backend/setup.py:7 | filtering commutes with concatenation |
| Setup.GetRequirements | Backend/setup.py:3-8 | every requirement is a break-free line starting with neither `#` nor `-`, and every such line of the file is a requirement |
| Setup.ReadBack | Backend/setup.py:3-8 | a file written line by line yields exactly its kept lines; blank lines are kept |
| Setup.FirstLine | Backend/setup.py:6-7 | the first line, ended by `\n` or `\r\n`, is kept or dropped on its own and the rest is read independently |

## Left out

- JSX and SVG markup, CSS classes, colours other than the modelled style strings, stroke widths, titles and GSAP scrolling: presentation, not behaviour.
- The dashboard's loading and empty-state screens (`page.js` lines 160-190) and the history table: markup over the modelled state.
- Browser storage, `JSON.parse` of the stored list, `fetch`, `response.json()`, `request.json()` and `NextResponse`: I/O. Their results are inputs (`SavedPredictions`, `Outcome`, `JsonBody`).
- `Math.random` and `new Date()` in the route: the two draws and the timestamp are parameters.
- Timer durations in the modal: only the order of the three timer events is kept.
- Js.Value: JavaScript objects and arrays are not values of the model. A request field holding `{}` or `[]` is truthy in `route.js:9-14` and gets a 200, and `[1] == 1` is true at `PredictionResultModal.jsx:29`; the model's fields and predictions are only undefined, null, booleans, numbers, NaN and strings.
- IEEE-754 doubles, Infinity, `-0` and rounding error: numbers are exact reals.
- `toFixed(1)` formatting of the summary: `SummaryStats` returns the unformatted numbers.
- The exact `parseFloat` and `Number` grammars: both are the abstract `text` parser.
- PredictionForm.TierOf: a string prediction is compared through the same abstract parser; JavaScript string-to-string comparison does not arise, as `<` here always has a number on one side.
- DashboardPage.SummaryStats: a saved score is taken to be a number. The page also reads scores with `parseFloat` (`page.js:354`), so a stored string score is possible; then the reduce at `page.js:89` concatenates strings and `lowest <= average <= highest` no longer describes what the page shows.
- DashboardPage.CountRisks: a risk named like a member of `Object.prototype` (`constructor`, `__proto__`, `toString`) is counted as an ordinary key; in the source's `acc[risk]` at `page.js:67-70` such names read an inherited property or are not stored as keys.
- DashboardPage.CountRisks: a risk string that looks like an array index would be ordered first by `Object.entries`. The model keeps first-occurrence order for all keys.
- DashboardPage.DashboardState.LoadSaved: a stored value that parses to something other than a list is not modelled.
- React batching, re-render scheduling and the chart's first render before its effect runs: each state change is one method call.
- `GridSearchCV`, `accuracy_score`, training-set scores and logging in `select_best_model`: the grid search and test score are the `search` parameter.
- `save_object` and `load_object`: file I/O.
- The file read in `get_requirements`: the model starts from the file's contents.
- Navigation, the about page, the Flask handlers and the prediction and training pipelines: not part of this model.
