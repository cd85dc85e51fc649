# Predictive maintenance pipeline — a Dafny model

This project models the four scripts of a predictive-maintenance pipeline for turbofan engines. The data is NASA's C-MAPSS FD001 run-to-failure logs.

- **Data preparation** (`1_data_prep.py`)
  - Each log line carries an engine id, a cycle, three operational settings and 21 sensor readings.
  - Every row is labelled with its Remaining Useful Life: the engine's last logged cycle minus the row's cycle.
- **Training** (`2_train_model.py`)
  - Sensors s7, s12 and s21 get a rolling mean and a rolling sample standard deviation over a trailing window of five rows. The window is computed per engine.
  - The NaNs the window leaves are back-filled over the whole table.
  - The nine features are assembled in a fixed order.
  - The rows are split by engine: ids up to 80 train the model, the rest test it.
- **Prediction service** (`3_api.py`)
  - `POST /predict` validates a JSON body against the nine-field schema `EngineData`.
  - It re-arranges the fields into the training order and asks the model.
  - It answers with the prediction and a status. The status is `Critical` below 30 cycles and `Normal` otherwise.
  - `GET /` answers with a fixed greeting.
- **Dashboard** (`4_dashboard.py`)
  - It re-derives the same features and picks engine 2's rows.
  - It posts one payload per row.
  - It keeps the history of predictions and index labels that the chart draws.

Modules, in dependency order:

- `Wrappers`: `Option` (NaN as `None`) and `Result`.
- `Seqs`: boolean-mask selection, map, count and sum, with their algebra.
- `Schema`: column names and the raw row.
- `Labeler`: the RUL label.
- `Rolling`: the per-engine trailing window, its mean and its sample variance.
- `Backfill`: pandas' backward fill on one column.
- `Features`: derived columns, fill, feature vector and train/test split.
- `Api`: request decoding, validation, column re-ordering and the response.
- `Dashboard`: loading, payloads and the simulation loop.

The trained regressor is a parameter `model: seq<real> -> real`. The floating-point square root is a parameter `sqrt: real -> real`. The HTTP round trip of the dashboard is a parameter `send`. A service that answers like `Api.Handle` is `Dashboard.Service(model)`.

Where the code and its documentation differ, the model follows the code:

- **The fill is table-wide.** The backward fill runs over the whole table and ignores engine boundaries.
  - `Features.FillStaysInEngine` proves that it equals a per-engine fill when two conditions hold: each engine's rows are contiguous (`Grouped`), and every engine has at least five rows (`LongEngines`).
  - `Features.FillTakesNextWindow` shows what the fill does in general: a row in its engine's first four rows takes the first defined window below it, whatever engine that window belongs to.
  - `Features.ShortEngineBorrows` covers the case that matters for grouped data. An engine with fewer than five rows that is not last in the table takes the next engine's first full-window statistics, where a per-engine fill would leave NaN. This is why `LongEngines` is needed.
  - `Features.FillCrossesEngines` is the one-step form of the first lemma; across engines it applies only to interleaved tables. `Features.ShortTailStaysMissing` covers a short last engine, whose rows stay NaN as a per-engine fill would also leave them.
- **The rows that stay NaN are the first four, not "the first 5 rows"** as the training script's comment says. A window of five is defined from an engine's fifth row on.
- **`history_time` holds pandas index labels.** These are the rows' positions in the full table, because selecting `id == 2` keeps the original labels.

## Model

| member | source | states |
|---|---|---|
| Schema.Digits | 1_data_prep.py:9 | the decimal text of a column number is non-empty, all digits, and a single character exactly for numbers below ten |
| Schema.DigitsInjective | 1_data_prep.py:9 | different sensor numbers give different f-string names |
| Schema.ColumnsLayout | 1_data_prep.py:9 | the schema has 26 names: `id`, `cycle`, `set1`..`set3`, then `s<k>` at position 4 + k for k = 1..21 |
| Schema.ColumnsDistinct | 1_data_prep.py:9 | no two schema columns share a name |
| Schema.ColumnNameShort | 1_data_prep.py:9 | schema names have at most five characters |
| Schema.Values | 1_data_prep.py:13 | a parsed row carries exactly one value per schema column |
| Schema.IndexOf | 1_data_prep.py:13 | a name lookup returns the first position holding that name, or nothing exactly when the name is absent |
| Schema.IndexOfDistinct | 1_data_prep.py:13 | in a repeat-free name list, each name is found at its own position |
| Schema.SensorColumn | 1_data_prep.py:13 | column `s<k>` of a parsed row reads sensor k |
| Schema.Field | 1_data_prep.py:13 | (no contract of its own) `row[name]`: the value of the named column, `None` for a name outside the schema; `SensorColumn` gives its meaning |
| Labeler.MaxCycle | 1_data_prep.py:27-28 | the per-engine maximum cycle is missing exactly when the engine logged no row |
| Labeler.MaxCycleIsEngineMax | 1_data_prep.py:27-28 | a found maximum is a cycle of that engine, and no row of the engine has a larger cycle |
| Labeler.EngineMaxUnique | 1_data_prep.py:27-28 | an engine has one maximum cycle |
| Labeler.Label | 1_data_prep.py:31-37 | labelling keeps every row and its order, and each row's cycle plus its RUL is its engine's maximum cycle |
| Labeler.LabelIsEngineMax | 1_data_prep.py:31-34 | cycle + RUL is the largest cycle the row's engine reaches |
| Labeler.RulZeroAtFailure | 1_data_prep.py:19-24 | RUL is never negative, and it is zero exactly on the rows logged at the engine's last cycle |
| Labeler.ContiguousEngineRul | 1_data_prep.py:20-24 | for an engine logged at cycles 1..n, the row at cycle c has RUL n − c |
| Labeler.EngineMaxOfFilter | 1_data_prep.py:27 | selecting an engine's rows keeps its maximum cycle, in both directions |
| Labeler.MaxCycleLocal | 1_data_prep.py:27-31 | only an engine's own rows determine its maximum |
| Labeler.SameMaximaSameLabels | 1_data_prep.py:31-34 | two tables with equal engine maxima label the same rows identically |
| Labeler.LabelsAreLocal | 1_data_prep.py:27-37 | labelling the whole table and then selecting one engine equals labelling that engine's rows alone |
| Rolling.Series | 2_train_model.py:20-21 | an engine's series has one reading per row of that engine |
| Rolling.TrailingWindow | 2_train_model.py:20-21 | a defined window holds exactly five readings |
| Rolling.WindowIsEngineSlice | 2_train_model.py:19-21 | the window at a row is NaN at the engine's positions 0..3; from position p ≥ 4 it is that engine's readings at positions p−4..p, with no other engine's rows in it, however the engines interleave |
| Rolling.RollingMean | 2_train_model.py:20 | (no contract of its own) `rolling(window=5).mean()` at a row: the mean of its trailing window, NaN while the window is not full; `WindowIsEngineSlice` gives its window and `DocumentedSensorSeven` a value |
| Rolling.SampleVariance | 2_train_model.py:21 | (no contract of its own) squared deviations from the mean divided by n − 1; `DocumentedWindow` fixes the n − 1 divisor |
| Rolling.RollingStd | 2_train_model.py:21 | (no contract of its own) `rolling(window=5).std()` at a row: the square root of the window's sample variance, NaN while the window is not full; `WindowIsEngineSlice` gives its window |
| Rolling.DocumentedWindow | 2_train_model.py:21 | the window 10, 20, 30, 40, 50 has mean 30 and sample (n−1) variance 250 |
| Rolling.DocumentedSensorSeven | 2_train_model.py:20 | the readings 0.5, 0.52, 0.60, 0.75, 0.90 have mean 0.654 |
| Backfill.Bfill | 2_train_model.py:24 | the fill keeps the length and every present value; a missing entry takes the value of the entry below it; a missing last entry stays missing |
| Backfill.BfillTakesNearest | 2_train_model.py:24 | a missing entry receives the nearest present value below it |
| Backfill.BfillMissingAtTail | 2_train_model.py:24 | an entry with nothing present at or below it stays missing |
| Backfill.BfillMissingOnlyAtTail | 2_train_model.py:24 | an entry the fill leaves missing has nothing present at or below it |
| Features.FilledMean | 2_train_model.py:20-24 | the filled mean column has one cell per row; `FillTakesNextWindow`, `DefinedStatsKept` and `ColumnFillStaysInEngine` give its cells |
| Features.FilledStd | 2_train_model.py:21-24 | the filled std column has one cell per row; `DefinedStatsKept` and `ColumnFillStaysInEngine` give its cells |
| Features.Derive | 2_train_model.py:19-24 | deriving keeps one row per labelled row and leaves each labelled row unchanged |
| Features.DefinedStatsKept | 2_train_model.py:20-24 | from an engine's fifth row on, the filled mean and std are the row's own window statistics |
| Features.NextInEngine | 2_train_model.py:24 | in a grouped table of long engines, a row in the first four of its engine is followed by the next row of the same engine |
| Features.ColumnFillStaysInEngine | 2_train_model.py:19-24 | in a grouped table of long engines, each filled mean and std is the statistic of the row's own window, or of the first full window of its engine before position 4 |
| Features.FillStaysInEngine | 2_train_model.py:19-24 | in a grouped table of long engines, the table-wide fill gives every row exactly what a per-engine fill would |
| Features.FillCrossesEngines | 2_train_model.py:24 | a row still in its engine's first four takes the next row's statistic, even when that row belongs to another engine |
| Features.FillTakesNextWindow | 2_train_model.py:24 | a row whose window and the windows of the rows down to row k are undefined, with row k's defined, gets row k's mean after the fill, whatever row k's engine |
| Features.ShortEngineBorrows | 2_train_model.py:19-24 | a row of an engine with fewer than five rows, followed by rows with undefined windows down to a row with a defined one, gets that later row's mean, from a different engine, where a per-engine fill leaves NaN |
| Features.ShortTailStaysMissing | 2_train_model.py:23-24 | when the table's last engine has fewer than five rows, its last row's mean stays NaN after the fill |
| Features.DerivedRowComplete | 2_train_model.py:23-24 | in a grouped table of long engines, no derived statistic is NaN |
| Features.FeatureNames | 2_train_model.py:28 | there are nine feature columns |
| Features.FeatureNamesSpelled | 2_train_model.py:13-28 | the features are s7, s12, s21, their three means, then their three stds |
| Features.DerivedNamesSpelled | 2_train_model.py:20-21 | the six derived column names are distinct |
| Features.FeatureVector | 2_train_model.py:29 | a row of `X` has one entry per feature name |
| Features.RawColumn | 2_train_model.py:28-29 | a raw feature name reads the row's own sensor reading |
| Features.DerivedColumn | 2_train_model.py:28-29 | a derived feature name reads the matching mean or std |
| Features.Column | 2_train_model.py:29-30 | (no contract of its own) `df[name]` at a derived row; `RawColumn`, `DerivedColumn`, `FeatureOrder` and `DeriveKeepsRawColumns` give its meaning |
| Features.FeatureOrder | 2_train_model.py:28-29 | entry n of `X` is the row's value in the column named by feature n |
| Features.SchemaNameIsRaw | 2_train_model.py:20-21 | no schema column is `RUL` or a derived name, so the new columns overwrite nothing |
| Features.DeriveKeepsRawColumns | 2_train_model.py:19-30 | after deriving, every raw column and `RUL` (the target `y`) read as in the labelled table |
| Features.InTrain | 2_train_model.py:34 | (a predicate) `train_mask`: the row's engine id is at most 80; `Split` and `EngineOnOneSide` use it |
| Features.Split | 2_train_model.py:34-36 | a row lands in the training half exactly when its id ≤ 80 and in the test half exactly when its id > 80; together the halves are the table without loss or duplication |
| Features.EngineOnOneSide | 2_train_model.py:32-36 | all of an engine's rows land in one half, in table order, and none land in the other |
| Api.ToMap | 3_api.py:32-34 | the decoded JSON object has exactly the body's keys |
| Api.ToMapLastWins | 3_api.py:32-34 | a key maps to the value of its last occurrence |
| Api.ToMapOfDistinct | 3_api.py:32-34 | with distinct keys, the object maps k to v exactly when the pair (k, v) is in the body |
| Api.AsDict | 3_api.py:14-34 | `data.dict()` lists the nine fields in declaration order |
| Api.AsDictInjective | 3_api.py:14-23 | a record is determined by its `dict()` values |
| Api.FieldNamesDistinct | 3_api.py:14-23 | no schema field is declared twice |
| Api.Validate | 3_api.py:14-32 | a body is rejected exactly when a schema field is missing; the error lists exactly the missing fields; an accepted record holds the body's values |
| Api.ValidateRoundTrip | 3_api.py:14-34 | validating a record's own `dict()` returns the record |
| Api.Lookup | 3_api.py:34-44 | a column lookup is missing exactly when no entry has that name, and a found value belongs to an entry with that name |
| Api.Select | 3_api.py:44 | selecting columns succeeds exactly when every name is present, and yields them in the requested order |
| Api.DictLookup | 3_api.py:34-44 | looking up a schema field in `data.dict()` finds that field's value |
| Api.ModelInput | 3_api.py:37-44 | the model input has nine entries, entry n being the field named `expected_order[n]` |
| Api.IndexIn | 3_api.py:37-44 | every name of `expected_order` is a schema field |
| Api.Classify | 3_api.py:51 | (no contract of its own) `Critical` below 30, `Normal` otherwise; `Handle` states the cutoff and `AlertLineIsCutoff` ties it to the chart |
| Api.Handle | 3_api.py:31-52 | a request is rejected exactly when a schema field is missing, naming exactly those fields; otherwise the prediction is the model applied to the fields in `expected_order`, and the status is Critical exactly below 30 |
| Api.SameFieldsSameResponse | 3_api.py:31-52 | two bodies that agree on the schema fields get the same response, whatever other keys they carry |
| Api.KeyOrderIrrelevant | 3_api.py:31-44 | with distinct keys, permuting a body's keys does not change the response |
| Api.ExpectedOrderIsTrainingOrder | 3_api.py:36-41 | the enforced column order is the training feature order |
| Api.DeclarationOrderDiffers | 3_api.py:14-41 | the schema's declaration order is a different arrangement of the same nine names, so the re-arrangement is needed |
| Api.Home | 3_api.py:26-28 | `GET /` answers with one key, `message`, holding the fixed greeting |
| Dashboard.Indexed | 4_dashboard.py:15-29 | the indexed table pairs each row with its position and has no other entries |
| Dashboard.LoadData | 4_dashboard.py:13-30 | the loaded rows are exactly the derived rows of engine 2 with their index labels, and the labels increase strictly |
| Dashboard.LoadedRowsComplete | 4_dashboard.py:25-29 | in a grouped table of long engines, every loaded row has all six statistics |
| Dashboard.Payload | 4_dashboard.py:61-71 | the payload has the nine schema fields, in the dashboard's key order |
| Dashboard.PayloadFromColumns | 4_dashboard.py:61-71 | each payload value is the row's column of the same name |
| Dashboard.PayloadPrediction | 4_dashboard.py:61-76 | the service accepts a payload and predicts the model's value on the row's training feature vector |
| Dashboard.History | 4_dashboard.py:54-95 | the two history lists always have the same length |
| Dashboard.HistoryIsSuccesses | 4_dashboard.py:78-95 | `history_time` lists exactly the labels of the ticks answered with a prediction, in increasing order; each `history_rul` entry is the prediction answered at the tick of the matching `history_time` label |
| Dashboard.Simulate | 4_dashboard.py:58-117 | the loop runs at most one tick per row and runs them all unless it aborts; an abort happens on a tick that raised, that tick is the last one run, and no earlier tick raised; when no tick raises the loop never aborts; its histories are the step-by-step history of the ticks run |
| Dashboard.StepOf | 4_dashboard.py:73-115 | (no contract of its own) the branch one tick takes: a non-200 is skipped; a 200 appends when the body is an object with both keys and a prediction that formats as a number; anything that raises aborts; `AppendNeedsBothKeys` and `PredictedReply` give its meaning |
| Dashboard.ReplyAt | 4_dashboard.py:76-115 | (no contract of its own) a complete row's payload goes to `send`; a row holding NaN makes the request itself fail; `ServedHistory` and `Simulate` use it |
| Dashboard.AppendNeedsBothKeys | 4_dashboard.py:78-95 | a tick appends only on a 200 whose body is an object holding both `predicted_RUL` and `status`; a 200 object lacking either key ends the loop |
| Dashboard.PredictedReply | 3_api.py:49-52 | the service's 200 body is read back by the dashboard as an appended tick carrying the prediction |
| Dashboard.Service | 3_api.py:31-52 | (no contract of its own) the service as the dashboard sees it: 200 with `predicted_RUL` and `status` for an accepted body, 422 otherwise; `ServedStep` and `PredictedReply` give its meaning |
| Dashboard.ServedStep | 4_dashboard.py:76-95 | with the service up, a row's payload is answered with the model's prediction |
| Dashboard.Predictions | 4_dashboard.py:94 | one prediction per row |
| Dashboard.Labels | 4_dashboard.py:95 | one label per row |
| Dashboard.AnsweredHistory | 4_dashboard.py:58-95 | when every tick is answered with the model's prediction, the histories are the predictions and labels of all visited rows in order |
| Dashboard.ServedHistory | 4_dashboard.py:58-95 | with the service up and complete rows, every tick appends the model's prediction on the row's features, and the histories cover every row |
| Dashboard.DashboardEndToEnd | 4_dashboard.py:13-95 | for a grouped table of long engines, every loaded row is complete, and with the service up the history over all of engine 2's rows is the model's prediction on each row's features against its index label |
| Dashboard.ServedRun | 4_dashboard.py:58-115 | a run of the loop over complete rows against the running service never aborts and charts every row in order: its index label against the model's prediction on its features |
| Dashboard.LiveSimulation | 4_dashboard.py:13-115 | a run of `load_data` and then the loop, on a grouped table of long engines and with the service up, never aborts and charts every row of engine 2 in table order |
| Dashboard.AlertLineIsCutoff | 4_dashboard.py:101 | the chart's threshold line is exactly the service's Critical cutoff |

## Left out

- The regressor itself is not modelled. XGBoost training (`2_train_model.py:38-41`) is left out; the fitted model is the parameter `model`.
- The RMSE evaluation and the example print are not modelled. They are numeric reporting on an opaque model.
- Floating-point arithmetic is not modelled. Values are mathematical reals and the square root is the parameter `sqrt`. Rounding in the rolling mean and std is not modelled.
- NaN is `None` in the derived columns. The other columns are assumed NaN-free, as a well-formed log file makes them.
- File I/O is not modelled: CSV reading and writing, pickling, and console and matplotlib output. Reading a well-formed file is modelled as the `Row` type.
- FastAPI routing and pydantic type coercion are not modelled. A body is a list of name/number pairs. A field of the wrong type is not modelled, only a missing one.
- A row with a NaN statistic ends the loop (`Dashboard.ReplyAt` gives `RequestFailed`), as with `requests` releases that encode `json=` bodies with NaN disallowed and raise. Older releases would post `NaN` as a bare token; that behaviour is not modelled.
- The HTTP transport is the parameter `send`. Every exception `requests.post` raises is the single `RequestFailed` reply. `requests.post` itself is not part of this model.
- A JSON body is modelled as an object of `Json` values, or `None` for anything else. JSON numbers are reals; integer-versus-float distinctions and the exact text of `response.text` are not modelled.
- The streamlit widgets are not modelled: start button, speed slider, metrics, error messages, plotly figure and `time.sleep`. Only the histories behind the chart and the chart's threshold line are modelled.
- The `Critical`/`Normal` colouring of the dashboard metric is left out. It is display-only and follows the service's status.
- `Api.Validate`: pydantic's handling of extra keys (ignored) is modelled. Its error message format is not: the error is the set of missing field names.
