# SmartAgroInsights core, in Dafny

SmartAgroInsights is a browser dashboard for soil-analysis CSV files of
agricultural fields, with Polish column names. This project models its three
core components:

- **Upload and report** (`src/SmartAgroApp.js`). The component keeps the
  current rows, their column names, a status line and the last report. On
  upload, the completed parse passes a schema gate. It checks that the first
  row has all 18 required columns. On success it replaces the rows and the
  columns and sets a "loaded N records" line. On failure it sets an error line
  naming the missing columns and leaves everything else unchanged. The report
  handler averages five columns over all rows. It bands pH and organic matter,
  fires five independent threshold rules in a fixed order and writes the
  report text. With no rows it changes nothing.
- **Yield prediction input** (`src/AIPrediction.js`). This covers the form
  state and its change handler, and the crop and soil dropdowns.
  - The trainable rows are those with crop, soil type and yield all set.
  - The encoding tables are the distinct values of those rows, in first-seen
    order.
  - A value is encoded as its position in the table, or -1.
  - The feature matrix, the target vector and the one-row input are handed to
    the regression.
- **Map data** (`src/MapView.js`). A row is placed on the map when its
  location text has at least two comma-separated parts and the first two
  both parse; any further parts are ignored. The map's
  centre is the first placed row, or Warsaw when no row can be placed.

Modules:

| module (file) | contents |
|---|---|
| `Records` (`records.dfy`) | A row as a list of distinctly named text fields, lookup by name, JavaScript truthiness, and numbers with NaN. |
| `Seqs` (`seqs.dfy`) | The JavaScript array and string operations the code uses: `filter`, `indexOf`, `[...new Set(xs)]`, `join` and `split`. The meaning of `filter`, `indexOf`, `[...new Set(xs)]` and `split` is proved. `join` is only defined; its one lemma is that joining the parts of a one-character `split` with that character gives back the text. |
| `Schema` (`schema.dfy`) | The required columns, the schema gate and the two status lines. |
| `Report` (`report.dfy`) | Column averages, the pH and organic-matter bands, the rule table and the report text. |
| `SmartAgro` (`smart_agro_app.dfy`) | The component as a class with fields `data`, `summary`, `keys` and `report`, and its two handlers as methods. |
| `Prediction` (`prediction.dfy`) | The form, the encoding tables, the training corpus and the prediction input. |
| `MapView` (`map_view.dfy`) | The placed rows and the map centre. |

Modelling decisions:

- **Parameters.** JavaScript's `parseFloat` is a parameter of type
  `Parser = string -> Option<real>`, where `None` stands for NaN.
  `Number.prototype.toFixed` is a parameter of type `Formatter`. Every
  property holds for every parser and every formatter.
- **NaN.** Only the NaN behaviour of IEEE doubles is modelled; finite
  numbers are exact reals (see `Report.Avg` under "Left out"):
  - a sum that meets NaN is NaN;
  - `<` and `>` against NaN are false;
  - the average of no rows is `0 / 0`, which is NaN.
- **Missing or empty text.** A cell that is missing or empty (falsy)
  contributes 0 to an average, via the `|| 0` default. A non-empty cell that
  does not parse contributes NaN and makes the whole average NaN.
- **Yield threshold.** The yield rule is `< 1000`, so an average of exactly
  1000 gives no advice. This component has no moisture rule.
- **Report wording.** The report's fixed texts (headings, advice lines and
  tips) are a record of constants, `Report.SourceWording`. The constructor
  stores it in the class constant `wording`. The per-average lines, which
  interpolate formatted numbers and band labels, are written out in full.
- **Row shape.** Column order is the order of a row's fields. That is the text
  order of `Object.keys` for non-numeric column names.

## Model

| member | source | states |
|---|---|---|
| SmartAgro.SmartAgroApp.constructor | src/SmartAgroApp.js:16-21 | The component starts with no rows, no columns, an empty status line and an empty report. The class invariant `Valid` holds: the columns are those detected in the rows, and rows on hand passed the schema gate. |
| SmartAgro.SmartAgroApp.CompleteUpload | src/SmartAgroApp.js:30-46 | If any required column is missing from the first row, only the status line changes, and it names the missing columns. Otherwise the rows and the columns are replaced by the parsed ones and the status line reports the count and the columns. In both cases the report is untouched and `Valid` is kept. |
| SmartAgro.SmartAgroApp.GenerateRecommendations | src/SmartAgroApp.js:50-101 | With no rows the report stays as it was. Otherwise the report becomes the text for the averages of the current rows. Only the report field may change, so `Valid` is kept. |
| SmartAgro.SmartAgroApp.ComposeReport | src/SmartAgroApp.js:61-98 | The appends, in order, build exactly the report text of the given averages: heading, five average lines, advice heading, the firing advice, then the tips. |
| SmartAgro.SmartAgroApp.AppendAdvice | src/SmartAgroApp.js:79-88 | The five conditional appends add exactly the advice lines of the rules that fire, in table order. |
| SmartAgro.SmartAgroApp.AppendIfFires | src/SmartAgroApp.js:79-80 | One conditional append adds the rule's line when its test holds and nothing otherwise. |
| Schema.RequiredNoDuplicates | src/SmartAgroApp.js:34 | The required list names each of its 18 columns once. |
| Schema.MissingNamedOnce | src/SmartAgroApp.js:34-38 | The list of missing columns that the error line joins holds each column once, in the order of the required list. |
| Schema.MissingColumnsExact | src/SmartAgroApp.js:34-35 | A column is reported missing exactly when it is required and not detected. The missing list keeps the order of the required list and has no repeats when the required list has none. |
| Schema.GatePassesIffAllPresent | src/SmartAgroApp.js:32-37 | The gate passes exactly when every required column is a key of the first parsed row. |
| Schema.NothingParsedMissesAll | src/SmartAgroApp.js:32-35 | When nothing was parsed, no keys are detected and every required column is reported missing. |
| Schema.FirstRowDecides | src/SmartAgroApp.js:32 | The detected columns depend only on the first parsed row. |
| Schema.DecimalString | src/SmartAgroApp.js:44 | The record count is written as a non-empty string of decimal digits. |
| Schema.DecimalStringRoundTrip | src/SmartAgroApp.js:44 | Reading the written count back as decimal digits gives the count, with no leading zero unless the count is 0. |
| Records.Keys | src/SmartAgroApp.js:32 | The keys of a row are its field names, in order, and no name occurs twice. |
| Report.AvgNaNIff | src/SmartAgroApp.js:53 | An average is NaN exactly when there are no rows or some row contributes NaN. |
| Report.AvgOfConstantColumn | src/SmartAgroApp.js:53 | When every row contributes the same number, the average is that number. |
| Report.AvgOfAbsentColumn | src/SmartAgroApp.js:53 | A column that is missing or empty in every row averages to 0. |
| Report.AvgWithinBounds | src/SmartAgroApp.js:53 | When all contributions are finite and lie in a range, the average is finite and lies in that range. |
| Report.PhBandRanges | src/SmartAgroApp.js:64 | The pH label is "kwaśna" below 5.5, "obojętna" from 5.5 below 7.5, and "zasadowa" from 7.5 up. |
| Report.OrganicBandRanges | src/SmartAgroApp.js:66 | The organic-matter label is "niska" below 1.5, "średnia" from 1.5 below 3.5, and "wysoka" from 3.5 up. |
| Report.RecommendationsExact | src/SmartAgroApp.js:79-88 | A rule appears among the recommendations exactly when its threshold test holds. |
| Report.RecommendationsInTableOrder | src/SmartAgroApp.js:79-88 | The recommendations appear in the fixed rule order, each at most once. |
| Report.RecommendationsByIfs | src/SmartAgroApp.js:79-88 | Filtering the rule table gives the same list as the five independent `if` statements one after another. |
| Report.ReportAdviceByIfs | src/SmartAgroApp.js:79-88 | Appending the advice block of the recommendations equals appending each rule's guarded line in turn. |
| Report.AdviceBlockConcat | src/SmartAgroApp.js:79-88 | The advice text of two rule lists concatenated is the concatenation of their advice texts. |
| Report.LimingExcludesAlkalineCaution | src/SmartAgroApp.js:79-82 | Liming and the alkaline caution are never recommended together. |
| Report.PhAdviceAgreesWithBand | src/SmartAgroApp.js:64-82 | Liming is recommended exactly in the acidic band. The alkaline caution only comes with the alkaline band. At pH exactly 7.5 the label is alkaline but no caution is given. |
| Report.OrganicAdviceAgreesWithBand | src/SmartAgroApp.js:66-84 | Organic fertilising is recommended exactly in the low organic-matter band. |
| Report.SalinityMarkerAgreesWithAdvice | src/SmartAgroApp.js:68-86 | The salinity warning in the EC line shows exactly when the salinity advice is given. |
| Report.NaNAverages | src/SmartAgroApp.js:55-88 | A NaN average reads as the top band ("zasadowa", "wysoka") and fires no rule on that average. |
| Prediction.HandleChange | src/AIPrediction.js:24-26 | Changing one input sets that input to the new value and keeps all the others. |
| Prediction.HandleChangeOverwrites | src/AIPrediction.js:24-26 | A second change to an input overrides the first. Setting an input to its current value changes nothing. |
| Prediction.OptionsExact | src/AIPrediction.js:35-36 | An encoding table holds every value the column takes, undefined included, and nothing else. It has no repeats and is in order of first occurrence. |
| Prediction.EncodeValue | src/AIPrediction.js:28 | The code is -1 exactly when the table lacks the value. Otherwise it is the first position holding the value. |
| Prediction.DecodeEncoded | src/AIPrediction.js:28 | The table entry at a value's code is the value. |
| Prediction.EncodePosition | src/AIPrediction.js:28 | In a table without repeats, the code of the entry at position k is k. |
| Prediction.FilteredExact | src/AIPrediction.js:31-33 | The training rows are exactly the rows with crop, soil type and yield all set, in their order. A repeated trainable row is kept as many times as it occurs. |
| Prediction.FeatureOrderCoversForm | src/AIPrediction.js:38-48 | The nine feature columns are the nine form inputs, each exactly once. |
| Prediction.FitShape | src/AIPrediction.js:38-50 | There is one nine-feature row and one single-value target per training row, in order, and one nine-feature input row. |
| Prediction.RowFeaturesCodes | src/AIPrediction.js:39-40 | A row's first two features are the codes of its crop and soil type. |
| Prediction.FormFeaturesCodes | src/AIPrediction.js:55-56 | The input's first two features are the codes of the chosen crop and soil type. |
| Prediction.TrainingCodesInRange | src/AIPrediction.js:35-40 | Every training row's crop and soil codes are valid positions in the tables, never -1. |
| Prediction.InputSharesTables | src/AIPrediction.js:54-64 | The input is encoded with the training tables, in the same feature order as a training row with the same values. |
| Prediction.InputCodeMissing | src/AIPrediction.js:54-56 | The input's crop code is -1 exactly when no training row has that crop, and likewise for the soil type. |
| Prediction.TablesWithinDropdowns | src/AIPrediction.js:21-36 | Every value of an encoding table is offered in the matching dropdown. |
| Prediction.DropdownValueCanEncodeMissing | src/AIPrediction.js:21-56 | A crop offered in the dropdown can still encode to -1: a field with a crop and a soil type but no yield is offered, yet not trained on. |
| MapView.Coordinates | src/MapView.js:10-11 | A location gives coordinates exactly when it has a second comma-separated part and both of the first two parts parse. The coordinates are those two parsed numbers. |
| MapView.PlacedRowsHaveLocation | src/MapView.js:9-12 | A row is placed exactly when its location cell is set and its first two parts parse, and every placed row carries exactly those two parsed numbers. |
| MapView.ValidDataExact | src/MapView.js:7-14 | The placed rows are exactly the locatable rows of the data, in order, each with its own coordinates. |
| MapView.ValidDataIsSubsequence | src/MapView.js:7-14 | The map keeps the data's order, never adds a row, and shows a row exactly when it is locatable. |
| MapView.ExtraPartsIgnored | src/MapView.js:10 | Parts of the location after the second comma-separated one make no difference. |
| MapView.NoSecondPartDropped | src/MapView.js:10-11 | A location without a comma leaves the longitude undefined, so the row is dropped. |
| MapView.TwoPartsParsed | src/MapView.js:10-12 | For "lat,lng" with both parts parseable, the coordinates are exactly the two parsed values. |
| MapView.CenterIsFirstLocatable | src/MapView.js:16-18 | The centre is the coordinates of the first locatable row, or Warsaw (52.2297, 21.0122) when no row is locatable. |
| Seqs.IndexOf | src/AIPrediction.js:28 | `indexOf` returns -1 exactly when the value is absent, and otherwise its first position. |
| Seqs.Distinct | src/AIPrediction.js:21-22 | `[...new Set(xs)]` has no repeats and holds exactly the elements of `xs`. |
| Seqs.DistinctFirstSeenOrder | src/AIPrediction.js:21-22 | `[...new Set(xs)]` lists its elements in the order they first occur in `xs`. |
| Seqs.FilterMembers | src/SmartAgroApp.js:35 | `filter` keeps exactly the elements that satisfy its test. |
| Seqs.FilterCounts | src/AIPrediction.js:31-33 | `filter` keeps each passing element as many times as it occurs, and drops every failing one. |
| Seqs.FilterIsSubsequence | src/SmartAgroApp.js:35 | `filter` keeps the order of the elements it keeps. |
| Seqs.Split | src/MapView.js:10 | `split` on a one-character separator always gives at least one part, and no part contains the separator. |
| Seqs.JoinSplit | src/MapView.js:10 | Joining the parts of `split` with the separator gives back the original text. |

## Left out

- Report.Avg: the sum and the quotient are exact reals, not rounded doubles, so an average within rounding error of a threshold can band and fire differently. For example, pH cells 5.1, 5.6, 5.6 and 5.7 average to 5.499999999999999 in JavaScript, which is "kwaśna" and triggers liming. The model gets exactly 5.5, which is "obojętna" with no advice. AvgOfConstantColumn and AvgWithinBounds likewise hold in real arithmetic only.
- CSV parsing by PapaParse: the handler receives the parsed rows as its input. Header handling and empty-line skipping are not modelled.
- The file chooser: with no file chosen, the upload handler returns before any state changes, so that case is not modelled.
- `xKey` and `yKey`, and all rendering (JSX, charts, the map widget, the dropdown menus themselves): they are presentation.
- `src/FieldFilter.js` is not part of this model.
- The regression (`ml-regression-multivariate-linear`), `mlr.predict`, and setting the prediction text: the regression is external code. The model stops at the matrix, the targets and the input handed to it.
- `parseFloat` and `toFixed` are parameters, not definitions. The model does not fix which texts parse, how numbers are rounded for display, or the Infinity values JavaScript can produce; a parser here yields a finite number or NaN.
- Object key order: JavaScript lists integer-like keys first, in numeric order. The model takes the fields in their stored order, which agrees only for non-numeric column names such as the required ones.
- MapView.Locate: the JavaScript spread `{...row, lat, lng}` would overwrite columns that are themselves named `lat` or `lng`. The model keeps the row and the coordinates side by side instead.
- SmartAgro.SmartAgroApp.GenerateRecommendations: the report's fixed texts are held in the constant record `Report.SourceWording`. The report therefore equals the source's text only through that record, and the individual advice texts are not compared character by character in any lemma.
- SmartAgro.SmartAgroApp.ComposeReport: the advice `if` statements are made by the helper methods `AppendAdvice` and `AppendIfFires` rather than inline, so the method is not a line-for-line copy of the handler.
