# StaySmart AI scoring pipeline in Dafny

A model of the scoring core of the StaySmart AI attrition dashboard (`app.py`).
An uploaded employee table goes through these steps:

1. Its headers are lower-cased and their spaces become underscores.
2. Every missing driver or feature column is filled with a caller-supplied
   draw from the column's default range.
3. A fixed weighted "raw risk" gives every row a synthetic `left` label.
4. A classifier's leave probability becomes an integer percentage,
   `flight_risk`. The run stores the corrected percentage, the probability
   of class 1. The code takes the last probability column instead; the two
   differ only when the classifier was fitted on stayers alone (see
   "## Findings").
5. That percentage is tiered into High, Medium or Low risk
   (`risk_category`).
6. Each row is explained by the first three warning signs it shows
   (`risk_reasons`).

The dashboard then reports:

- the number of high-risk employees;
- the replacement cost at risk;
- the ten rows with the highest flight risk.

Modules, one per concern:

- `Wrappers`: `Option`, `Result` and `Outcome`.
- `Cells`: a cell is an integer, a real or text.
- `Headers`: header normalisation.
- `Defaults`: the defaults table, the fill and the feature list.
- `Risk`: the raw risk and the `left` label.
- `Categories`: the risk tiers.
- `Reasons`: the explanation of a row.
- `Prediction`: the flight-risk percentage from the classifier's output.
- `Summary`: the headline counts and the top-ten view.
- `Tables`:
  - the table as a value (`Frame`), with pandas-style column reads and
    writes and one step function per stage;
  - the `Table` class, which updates its fields in place one stage at a time.
- `Pipeline`:
  - `Scored`, the whole run as a function;
  - `Analyse`, which runs the `Table` methods in order and is proved to end
    in the state and outcome `Scored` describes;
  - lemmas on when a run completes and what it leaves in the table.

Modelling choices:

- **Column reads.** Reading a column succeeds only when exactly one header
  carries the name. An absent name is `MissingColumn`. A repeated name is
  `AmbiguousColumn`, because pandas then yields a frame, and the arithmetic,
  `apply` and assignment that follow fail.
- **Column writes.** Writing a column replaces every column of that name, or
  appends one when there is none.
- **Failure.** A run stops at the first failing step. `Run.table` is the table
  as the last completed step left it.
- **The classifier's inputs.** `train_test_split(test_size=0.2)` needs at
  least two rows, so a run with fewer stops with `TooFewRows`. Scaling needs
  every feature column to be numeric; otherwise the run stops with
  `NonNumericFeatures`.
- **Default ranges.** `np.random.randint(lo, hi, n)` never draws `hi`, so
  every integer default range is half-open: a filled `distance_from_home`
  lies in [1, 40), a filled satisfaction score in [1, 10).

## Model

| member | source | states |
|---|---|---|
| Cells.AsNumber | app.py:75-81 | A text cell is not a number; an integer or real cell reads as its value as a real. |
| Headers.LowerChar | app.py:56 | The result is never an upper-case ASCII letter. A non-upper character is unchanged; an upper-case letter maps to its lower-case partner. |
| Headers.Lower | app.py:56 | Same length; every character is mapped by the ASCII lower-casing `LowerChar`. |
| Headers.ReplaceSpaces | app.py:56 | Same length; every space and nothing else becomes `_`. |
| Headers.NormaliseHeader | app.py:56 | Same length; the result has no space and no upper-case letter. A position is `_` exactly when the input held a space or `_` there. Other non-upper characters are unchanged. |
| Headers.NormaliseAll | app.py:56 | Every header is normalised in place, position by position, so the header count is unchanged. |
| Headers.NormalFixedPoint | app.py:56 | A header is left unchanged exactly when it has no space and no upper-case letter. |
| Headers.NormaliseIdempotent | app.py:56 | Normalising a header twice gives the same result as once. |
| Headers.NormaliseAllIdempotent | app.py:56 | Normalising the header row twice gives the same result as once. |
| Headers.HeadersCanCollide | app.py:56 | Distinct headers can normalise to the same name (`Age`, `age`): normalisation does not de-duplicate. |
| Defaults.DefaultNames | app.py:58-68 | The nine default column names, in the defaults table's order. |
| Defaults.DefaultNamesDistinct | app.py:58-68 | The nine default names are pairwise distinct. |
| Defaults.Filled | app.py:70-72 | The whole fill keeps the headers and data as a prefix and appends at most nine columns, one data column per added header. |
| Defaults.FillFrom | app.py:70-72 | The fill loop from key k on only appends: it keeps the existing columns and data as a prefix, adds at most one column per remaining key, and adds one data column per added header. |
| Defaults.Missing | app.py:70-72 | The keys from k on whose names are not headers, in increasing order, and all of them. |
| Defaults.FillAppendsMissing | app.py:70-72 | The loop from k on appends exactly the missing keys' names and draws, in key order. |
| Defaults.FillSkips | app.py:71 | Step case of FillAppendsMissing: a key already present is skipped. |
| Defaults.FillAppends | app.py:71-72 | Step case of FillAppendsMissing: a missing key is appended with its draw. |
| Defaults.MissingStep | app.py:71 | A missing key heads the list of missing keys from it on. |
| Defaults.FillIsAppendMissing | app.py:70-72 | The whole loop leaves the original columns followed by the missing defaults and their draws. |
| Defaults.FilledUnfold | app.py:70-72 | The same, for the nine defaults. |
| Defaults.FilledAt | app.py:70-72 | The j-th appended column carries the name and the draw of a default key that was missing. |
| Defaults.FillCoversDefaults | app.py:58-72 | After the fill every default name is a header. |
| Defaults.FillAddsDraws | app.py:58-72 | Every appended column is a default that was missing. It holds that default's draw: one value per row, each within the generator's range. |
| Defaults.FeaturesAfterFill | app.py:85-92 | Every feature name is a header after the fill, so `df[features]` finds them all. |
| Defaults.FillKeepsShape | app.py:70-72 | The fill keeps the table rectangular: one value per row in every column. |
| Risk.RiskScore | app.py:75-81 | The weighted raw risk; for drivers within their documented ranges it lies in [0, 10]. |
| Risk.Left | app.py:83 | The label is 0 or 1. |
| Risk.RiskMonotone | app.py:75-83 | The risk and the label do not increase with satisfaction or engagement. They do not decrease with months since a hike, overtime or distance. |
| Risk.DefaultDriversInBounds | app.py:59-67 | Drivers drawn from the default ranges are in bounds, and their risk lies strictly between 0 and 10. |
| Risk.ContentedRowStays | app.py:75-83 | Drivers (9, 9, 1, 2, 3) score below 1 and are labelled 0. |
| Risk.DiscontentedRowLeaves | app.py:75-83 | Drivers (1, 1, 35, 79, 39) score above 9 and are labelled 1. |
| Categories.LabelRisk | app.py:110-116 | Exactly one of three tiers. High iff score >= 70; Medium iff 50 <= score < 70; Low iff score < 50. |
| Categories.LabelMonotone | app.py:110-116 | A higher score never gets a lower tier. |
| Reasons.ReasonList | app.py:122-127 | The conditional appends: at most one entry per check. |
| Reasons.Join | app.py:128 | `", ".join(xs)`: the first entry starts the result, followed by the separator when there is a second. |
| Reasons.Reason | app.py:121-128 | A row's explanation is the join of the first three texts of the checks that hold, in check order. |
| Reasons.Fired | app.py:122-127 | Reference list of the texts of the checks that hold; no longer than the check list. |
| Reasons.Take | app.py:128 | `xs[:n]`: a prefix of length min(n, \|xs\|). |
| Reasons.JoinCommas | app.py:128 | Joining comma-free entries puts exactly one comma between neighbours: \|xs\| - 1 commas. |
| Reasons.JoinEmpty | app.py:128 | Joining non-empty entries is empty exactly when there are none. |
| Reasons.ReasonListIsFired | app.py:121-127 | The five conditional appends build the reference list of holding checks, in priority order. |
| Reasons.EntriesPlain | app.py:123-128 | No entry of an explanation is empty or holds a comma. |
| Reasons.CheckTextsPlain | app.py:123-127 | No check text is empty or holds a comma. |
| Reasons.FiredSound | app.py:122-127 | Every listed entry is the text of a check that holds. |
| Reasons.FiredComplete | app.py:122-127 | Every check that holds has its text listed. |
| Reasons.FiredEmpty | app.py:122-127 | The list is empty exactly when no check holds. |
| Reasons.FiredPlain | app.py:123-127 | Entries of the list are non-empty and comma-free when the check texts are. |
| Reasons.ReasonExplained | app.py:121-128 | A row's explanation joins the first three holding checks in priority order. It has at most two commas (at most three entries). It is empty exactly when no condition holds. |
| Prediction.RoundHalfEven | app.py:107 | `.round(0)`: within 0.5 of the input, with ties going to the even integer. |
| Prediction.FlightRiskAsWritten | app.py:107 | The last probability column times 100, rounded. |
| Prediction.LeaveProbability | app.py:106-107 | The probability of class 1, in [0, 1]. It is 0 when the classifier never saw a leaver. |
| Prediction.FlightRisk | app.py:106-107 | The leave probability as a rounded percentage in [0, 100]. |
| Prediction.AsWrittenAgreesWhenLeaversSeen | app.py:107 | When class 1 was fitted, the last column is the class-1 column, so the code as written and the corrected version agree. |
| Prediction.AsWrittenInvertsSingleClass | app.py:104-107 | With only stayers in training, the code as written gives 100 and High Risk. The corrected version gives 0 and Low Risk. |
| Summary.HighRiskCount | app.py:136 | The count of "High Risk" cells is at most the number of rows. |
| Summary.CostAtRisk | app.py:140-141 | At most the replacement cost times the number of rows. |
| Summary.Categorised | app.py:118 | One tier cell per risk: the tier of that risk. |
| Summary.CostCountsHighRisks | app.py:136-141 | The high-risk count is the number of risks >= 70. The cost at risk is 600000 times that. |
| Summary.Insert | app.py:153 | Insertion adds exactly one element: the multiset grows by x. |
| Summary.InsertSorted | app.py:153 | Insertion keeps a descending sequence descending. |
| Summary.SortDesc | app.py:153 | The sort is a permutation of its input. |
| Summary.SortDescSorted | app.py:153 | The sort's output is in non-increasing flight risk. |
| Summary.TopRows | app.py:153-155 | `sort_values(...).head(10)`: at most ten rows, a prefix of the table sorted by flight risk. |
| Summary.TopRowsPrefix | app.py:153-155 | The view is a prefix of the whole table sorted by flight risk. |
| Summary.TopRowsSpec | app.py:153-155 | The view has min(10, n) rows, each a distinct row carrying its own flight risk, in non-increasing order. |
| Summary.TopRowsBest | app.py:153-155 | No row outside the view has a higher flight risk than the last row shown. |
| Summary.TopRowsOrdered | app.py:153-155 | The view has min(10, n) rows, in non-increasing order of flight risk. |
| Summary.TopRowsFromTable | app.py:153-155 | Every row of the view comes from the table, and at most once. |
| Summary.TopRowOwnRisk | app.py:153-155 | A row of the view carries its own row's flight risk. |
| Tables.Lookup | app.py:93 | The read succeeds exactly when one header carries the name, and then gives that header's column, one cell per row. It fails with `MissingColumn` exactly when no header carries the name, and with `AmbiguousColumn` when several do. |
| Tables.Assign | app.py:83 | The table stays rectangular with the same rows; no header is removed; the written name is present. |
| Tables.NumericColumn | app.py:75-81 | The numeric read succeeds exactly when the column reads and every cell is a number, and then gives each cell's number, one per row. A failed read passes its error on; a text cell gives `NonNumeric`. |
| Tables.DriverRows | app.py:75-81 | The drivers read exactly when all five driver columns read as numbers, and then row i holds the five columns' numbers at i. |
| Tables.LeftColumn | app.py:83 | One cell per row: the row's integer label. |
| Tables.ReasonColumn | app.py:130 | One cell per row: the row's explanation. |
| Tables.FlightRisks | app.py:106-107 | One flight risk per row: the corrected percentage, from the probability of class 1. |
| Tables.FlightRisksAsWritten | app.py:107 | One flight risk per row as the code computes it, from the last probability column. |
| Tables.FlightRisksAgreeWhenLeaversSeen | app.py:104-107 | Once class 1 was fitted, the corrected column equals the column as written. |
| Tables.FlightRisksInvertedForStayersOnly | app.py:104-107 | With only stayers fitted, every flight risk as written is 100 and every corrected one is 0. |
| Tables.FlightRiskColumn | app.py:107 | One real cell per row holding its corrected flight risk. |
| Tables.Normalised | app.py:56 | The same data and rows with as many headers, every one of them normalised; a rectangular table stays rectangular. |
| Tables.WithDefaults | app.py:70-72 | The filled table is rectangular with the same rows. It keeps the headers and data as a prefix and holds every default name. |
| Tables.WithFlightRisk | app.py:107 | The table stays rectangular with the same rows, keeps its headers as a prefix, and holds `flight_risk`. |
| Tables.WithLeft | app.py:75-83 | On success the table stays rectangular with the same rows and keeps its headers as a prefix. |
| Tables.WithCategories | app.py:118 | On success the table stays rectangular with the same rows and keeps its headers as a prefix. |
| Tables.WithReasons | app.py:130 | On success the table stays rectangular with the same rows and keeps its headers as a prefix. |
| Tables.AssignCount | app.py:72 | A write adds its name once if it was absent and changes no other name's count. |
| Tables.AssignThenLookup | app.py:83 | Reading a column just written gives the written values, or "ambiguous" when the name was already repeated. |
| Tables.AssignKeepsOthers | app.py:83 | Writing one column leaves what every other name reads unchanged. |
| Tables.AssignKeepsDrivers | app.py:83 | Writing a non-driver column leaves the drivers unchanged. |
| Tables.AssignKeepsFeatures | app.py:83-92 | Writing a non-feature column leaves the features' numeric state unchanged. |
| Tables.FlightRiskReadsBack | app.py:107-118 | The stored flight-risk column reads back as the flight risks. |
| Tables.DriversPresentAfterFill | app.py:70-81 | After the fill, reading the drivers never fails for a missing column. |
| Tables.DriverNames | app.py:59-67 | The five driver columns are among the default keys. |
| Tables.DriversPresent | app.py:75-81 | A table holding the five driver columns fails to read them only on a repeated or non-numeric column. |
| Tables.LeftIsNoFeature | app.py:83-90 | `left` is not one of the features. |
| Tables.Table.constructor | app.py:51 | The table holds the uploaded headers, data and row count. |
| Tables.Table.NormaliseHeaders | app.py:56 | The new state is the old one with every header normalised. |
| Tables.Table.FillDefaults | app.py:70-72 | The loop leaves the state the fill specification gives. The table stays rectangular. |
| Tables.Table.LabelLeavers | app.py:75-83 | On success the state gains the `left` column; on failure it is unchanged and the error is reported. |
| Tables.Table.AddFlightRisk | app.py:106-107 | The state gains the `flight_risk` column holding the corrected percentages. |
| Tables.Table.Categorise | app.py:118 | On success the state gains `risk_category`; on failure it is unchanged and the error is reported. |
| Tables.Table.Explain | app.py:130 | On success the state gains `risk_reasons`; on failure it is unchanged and the error is reported. |
| Pipeline.Prepared | app.py:56-72 | The prepared table is rectangular with the same rows. Its normalised upload headers come first, and the uploaded data columns too. Every default name is a header. |
| Pipeline.Scored | app.py:56-130 | The whole run leaves a rectangular table with the same rows that starts with the normalised upload headers; a run that passes had at least two rows. |
| Pipeline.ScoredFrom | app.py:83-130 | The run from the prepared table on keeps it rectangular with the same rows and its headers as a prefix; a run that passes had at least two rows. |
| Pipeline.Explained | app.py:118-130 | Categorising and explaining keep the table rectangular with the same rows and its headers as a prefix. |
| Pipeline.Analyse | app.py:56-130 | Running the steps in place ends in the table and outcome the specification `Scored` gives. |
| Pipeline.ScoredUnfold | app.py:83-130 | A run that nothing stops writes `left`, `flight_risk`, `risk_category` and `risk_reasons`, in that order, and passes. |
| Pipeline.ScoredSucceeds | app.py:75-118 | A run completes if and only if `Completes` holds: the drivers are numeric and unrepeated; `left` and `flight_risk` are not repeated; there are at least two rows; every feature column is numeric (`FeaturesNumeric`, what the scaler at app.py:101 demands). |
| Pipeline.CompletedColumns | app.py:83-130 | A completed run keeps every prepared header. It reads back `left`, `risk_reasons`, `flight_risk` and `risk_category` as the label and explanation of each row's drivers, the classifier's flight risk, and its tier; a repeated derived name reads as ambiguous. Every other column reads back as it did in the prepared table. |
| Pipeline.CompletedKeepsOthers | app.py:83-130 | A completed run leaves every column other than the four it writes reading as before. |
| Pipeline.CompletedLeft | app.py:83 | After a completed run, `left` holds each row's label. |
| Pipeline.CompletedFlightRisk | app.py:107 | After a completed run, `flight_risk` holds each row's flight risk. |
| Pipeline.CompletedCategory | app.py:118 | After a completed run, `risk_category` holds each row's tier. |
| Pipeline.CompletedReasons | app.py:130 | After a completed run, `risk_reasons` holds each row's explanation. |
| Pipeline.ScoredKeepsHeaders | app.py:56-72 | A completed run keeps every uploaded header, normalised and in its original order, at the front, and holds every default name. |
| Pipeline.CompletedHeadlines | app.py:136-141 | In a completed run, the high-risk count is the number of rows with flight risk >= 70. The cost at risk is 600000 per such row. |
| Pipeline.CompletedRiskColumn | app.py:107-118 | The `flight_risk` column of a completed run reads back as numbers as the flight risk of every row, the input the top-employees view sorts. |
| Pipeline.TopRisks | app.py:153-155 | The top-employees view over the flight risks has min(10, n) rows in non-increasing order; no row left out ranks above the last one shown. |
| Pipeline.TopRisksOwnRows | app.py:106-155 | Every row of the view carries the flight risk the classifier's probabilities give that row. |
| Pipeline.TopRiskRow | app.py:106-155 | One row of the view carries its own row's flight risk. |

## Left out

- Reading and writing files is not modelled: the CSV upload, the preview, the KPI cards' formatting, the distribution chart, the download button and all other Streamlit output.
- The average flight risk card (app.py:137) and the crore formatting of the cost (app.py:142) are display only and are not modelled.
- Random draws are parameters: the caller supplies one column per default, and the model only requires each value to lie in its generator's range.
- The classifier is not modelled: the split, the scaler and the random forest. Its fitted classes and `predict_proba` rows are parameters.
- Floating point is not modelled; the model uses exact reals. The weighted risk near 5.5 and the percentages near .5 may round differently in IEEE doubles.
- Missing cells (NaN) are not modelled: every cell is an integer, a real or text.
- Headers.LowerChar: only ASCII letters are case-mapped; Python's `str.lower` also maps non-ASCII letters.
- Tables.Lookup: a repeated column name is an error at the first read. pandas would return a frame and fail at a later arithmetic or assignment step, so the error may be reported at a different step.
- Summary.TopRows: `sort_values` uses an unstable quicksort. The model uses a stable insertion sort, and its contracts state only what every correct descending sort guarantees, not the order among equal risks.
- Tables.FlightRisks: the run stores the corrected percentage, the probability of class 1, not the last probability column that app.py:107 takes. The two agree whenever the classifier was fitted on a leaver (`FlightRisksAgreeWhenLeaversSeen`). When it was fitted on stayers alone, the code as written gives every row 100, High Risk and a cost of 600000 per row; the model gives 0, Low Risk and 0 (`FlightRisksInvertedForStayersOnly`).
- Tables.FlightRiskColumn: holds the corrected percentages of `Tables.FlightRisks`, not the last probability column of app.py:107, and so differs from it in the same single-class case.
- Tables.Table.AddFlightRisk: stores the corrected percentage, as `Tables.FlightRisks` does, and so differs from app.py:107 in the same single-class case.

## Findings

| source | as written | input that shows it | evidently intended | confidence | as-written member | corrected member |
|---|---|---|---|---|---|---|
| app.py:107 | `proba[:, -1]` takes the last probability column as the chance of leaving | Every row scores at or below 5.5, so every `left` is 0; the classifier is fitted on class 0 alone and `predict_proba` returns one column, P(stay) = 1.0. Every flight risk becomes 100 and every row "High Risk". | The probability of class 1 (leaving), which is 0 when no leaver was seen | not executed | Prediction.AsWrittenInvertsSingleClass | Prediction.FlightRisk |
