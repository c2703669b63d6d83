# Marketing budget allocation: aggregation and LP allocation in Dafny

This project models the two core steps of a marketing-budget allocator.

- `process_data` (utils/data_processor.py) reduces a table of campaign records to one row
  per advertising platform. It first checks that `Channel_Used` and `ROI` are present.
  It then coerces the numeric columns of the caller's table to numbers in place. Next it
  groups the records by platform and averages ROI, Conversion_Rate and Acquisition_Cost
  and sums Clicks and Impressions. It drops every aggregated column that is missing on
  some platform. Finally it derives `Engagement = Clicks / Impressions`.
- `validate_data` checks a column set against the required and the recommended columns
  and builds the user-facing message.
- `optimize_budget` (utils/optimizer.py) splits a total budget across the platforms. It
  solves the linear program "maximise the sum of roi[i] * x[i] subject to
  sum x[i] == total_budget and x[i] >= 0". It then builds one result row per platform
  (allocation, expected return, percentage of the budget) and sorts the rows by expected
  return, highest first.

Files:

- `wrappers.dfy`: `Option` (a missing value, pandas' NaN) and `Result` (a value or the
  exception the source raises).
- `data_processor.dfy`: module `DataProcessor`. A campaign table is a column set plus a
  sequence of `Record`s. Each record holds its platform and a map from every other column
  to a raw `Cell` (`Number`, `Text` that does not parse, or `Blank`). The `Frame` class holds
  the caller's table as an array. `Frame.CoerceNumeric` updates it in place, as the
  source's loop at lines 41-43 updates the caller's DataFrame. Grouping, aggregation,
  `dropna` and Engagement are functions, with lemmas about them.
- `optimizer.dfy`: module `Optimizer`. The LP solver is foreign code, so its answer is a
  parameter (`LpOutcome`). The model demands only what a correct solver promises: on
  success, `SolvedOptimally`. `OptimalIffSolved` proves this is exactly LP optimality, and
  `ReferenceSolve` is a solver proved to meet it. Shaping, sorting and the column totals
  of the result table are functions, with lemmas.

Numbers are Dafny `real`s, so arithmetic is exact.

## Model

| member | source | states |
|---|---|---|
| DataProcessor.MissingFrom | utils/data_processor.py:11 | the missing names are exactly the listed names that are absent, each as often as it is listed, in list order |
| DataProcessor.Join | utils/data_processor.py:16-22 | the joined text is empty for no parts, starts with the first part (followed by the separator when there are more) and ends with the last |
| DataProcessor.MissingRequired | utils/data_processor.py:8-11 | the missing required columns are Channel_Used then ROI, each listed exactly when absent |
| DataProcessor.ValidateData | utils/data_processor.py:8-29 | the result is valid exactly when both Channel_Used and ROI are present |
| DataProcessor.ValidateDataRequiredMessages | utils/data_processor.py:11-17 | the exact message for each of the three ways of missing a required column |
| DataProcessor.OneRequiredMissing | utils/data_processor.py:11-16 | with exactly one required column absent the message is the prefix followed by that column's name |
| DataProcessor.BothRequiredMissing | utils/data_processor.py:11-16 | with both required columns absent the message is "Missing required columns: Channel_Used, ROI" |
| DataProcessor.ValidateDataRecommendedMessage | utils/data_processor.py:19-29 | a valid set gets the fixed all-present message when it has every recommended column, and otherwise the prefix joined with the (non-empty) list of missing recommended columns, which MissingFrom pins as exactly the absent ones in their fixed order |
| DataProcessor.ValidateAgreesWithProcess | utils/data_processor.py:13-17 | validate_data accepts a column set exactly when process_data does not raise its schema error (lines 36-37) |
| DataProcessor.ToNumeric | utils/data_processor.py:43 | no text survives coercion, the cell's numeric reading is unchanged, and the cell is either kept as it was or emptied |
| DataProcessor.CoerceRecordOn | utils/data_processor.py:41-43 | coercing a record keeps its platform and columns, leaves no text in a coerced column, leaves the other cells as they were and keeps every numeric reading |
| DataProcessor.CoerceColumn | utils/data_processor.py:42-43 | coercing one column keeps the record's platform and columns, leaves no text in that column, leaves every other cell as it was and keeps every numeric reading |
| DataProcessor.CoerceTable | utils/data_processor.py:40-43 | coercion keeps the number of records, each record's platform and set of columns, and the numeric reading of every cell |
| DataProcessor.Frame.CoerceNumeric | utils/data_processor.py:40-43 | the caller's records become the coerced table: every present numeric column coerced, everything else unchanged |
| DataProcessor.Frame.CoerceColumnInPlace | utils/data_processor.py:42-43 | one loop iteration coerces one column in every record and changes nothing else |
| DataProcessor.Frame.Process | utils/data_processor.py:31-61 | the schema error leaves the table untouched; otherwise the table is coerced in place and the summary of the coerced table is returned |
| DataProcessor.CoerceTableCells | utils/data_processor.py:40-43 | per cell: in a present numeric column a number is kept and other values become missing; other cells are unchanged |
| DataProcessor.CoerceTableClean | utils/data_processor.py:40-43 | after coercion no present numeric column holds a non-numeric value |
| DataProcessor.CoerceTableIdempotent | utils/data_processor.py:40-43 | coercing an already coerced table changes nothing |
| DataProcessor.CoercedAggregates | utils/data_processor.py:40-52 | coercion changes neither the platforms nor any platform's aggregate of any column |
| DataProcessor.Platforms | utils/data_processor.py:46 | the group keys are exactly the distinct platforms of the input, each once |
| DataProcessor.Group | utils/data_processor.py:46 | a platform's group holds each record of that platform as often as the input does, and no other record |
| DataProcessor.GroupBy | utils/data_processor.py:46 | the groups are keyed by exactly the input's platforms |
| DataProcessor.GroupByPartitions | utils/data_processor.py:46 | the groups partition the input: non-empty, only own-platform input records, with input multiplicities, every record in its platform's group |
| DataProcessor.GroupTotalsPartition | utils/data_processor.py:46 | the per-platform totals of a column add up to the column's total over the whole input |
| DataProcessor.Lookup | utils/data_processor.py:43-51 | a record's value in a column is the number coercion leaves there, missing where the column is absent or coercion empties the cell |
| DataProcessor.ColumnValues | utils/data_processor.py:47-51 | a column's non-missing values in a group: no more values than records, and none exactly when no record has a value |
| DataProcessor.Mean | utils/data_processor.py:47 | the mean exists exactly when there is a value to average |
| DataProcessor.Aggregate | utils/data_processor.py:47-51 | a summed column (Clicks, Impressions) always has an aggregate; an averaged one is missing exactly when no record of the group has a value |
| DataProcessor.AggregatedColumns | utils/data_processor.py:46-51 | the aggregated columns are exactly the coerced ones (lines 40-42), all present in the table, ROI among them whenever the table has it |
| DataProcessor.MeanWithinBounds | utils/data_processor.py:47 | a mean lies within any bounds of the values it averages |
| DataProcessor.GroupRows | utils/data_processor.py:46-52 | one aggregated row per distinct platform, in platform order, with exactly the aggregated columns |
| DataProcessor.DropMissingColumns | utils/data_processor.py:55 | dropna keeps the number of rows and each row's platform |
| DataProcessor.DropWellFormed | utils/data_processor.py:55 | after dropna every row has exactly the kept columns, all with values, and only aggregated columns are kept |
| DataProcessor.EngagementOf | utils/data_processor.py:59 | Engagement exists exactly when both inputs exist and impressions are non-zero, and then times impressions it gives clicks |
| DataProcessor.AddEngagement | utils/data_processor.py:58-59 | adding Engagement keeps the number of rows and their platforms |
| DataProcessor.AddEngagementWellFormed | utils/data_processor.py:58-59 | adding Engagement keeps a well-formed table well formed and adds no column but Engagement |
| DataProcessor.Summarise | utils/data_processor.py:46-59 | one output row per distinct platform, in platform order, with only aggregated columns and possibly Engagement |
| DataProcessor.SummariseWellFormed | utils/data_processor.py:46-59 | every output row has exactly the output's columns, only Engagement can be missing, and only numeric columns or Engagement appear |
| DataProcessor.SummaryOneRowPerPlatform | utils/data_processor.py:46-52 | the output has one row per distinct input platform, and no platform twice |
| DataProcessor.ColumnSurvival | utils/data_processor.py:46-55 | an aggregated column survives exactly when the table has it and its aggregate exists on every platform |
| DataProcessor.NoMissingIff | utils/data_processor.py:55 | no platform row lacks a column exactly when every platform has that column's aggregate |
| DataProcessor.SummaryValues | utils/data_processor.py:46-52 | a surviving column holds, per platform, the sum (Clicks, Impressions) or the mean (the others) of that platform's values |
| DataProcessor.SumColumnsSurvive | utils/data_processor.py:50-55 | a summed column the table has always survives |
| DataProcessor.MeanColumnSurvival | utils/data_processor.py:47-55 | an averaged column survives exactly when every platform has a value in it |
| DataProcessor.AbsentColumnsStayAbsent | utils/data_processor.py:48-55 | a column absent from the input is absent from the output |
| DataProcessor.EngagementColumn | utils/data_processor.py:58-59 | Engagement appears exactly when the table has Clicks and Impressions, and is per platform clicks / impressions, missing when impressions total 0 |
| DataProcessor.SumColumnTotals | utils/data_processor.py:50-51 | a summed column totals to the same value over the output rows as over the input records |
| DataProcessor.SummaryMeanWithinRange | utils/data_processor.py:47-49 | an averaged output value lies within the range of its platform's input values |
| DataProcessor.CoercedPlatforms | utils/data_processor.py:40-52 | the summary of the coerced table has one row per distinct platform of the caller's records |
| DataProcessor.CoercedColumns | utils/data_processor.py:40-55 | the columns that survive, stated in terms of the caller's original records |
| DataProcessor.CoercedValues | utils/data_processor.py:40-52 | the output values are the aggregates of the caller's original records |
| DataProcessor.CoercedEngagement | utils/data_processor.py:40-59 | Engagement, stated on the caller's original records: present exactly when the table has Clicks and Impressions, and per platform the summed Clicks over the summed Impressions, missing where Impressions total 0 |
| DataProcessor.ProcessOutcome | utils/data_processor.py:31-61 | the schema error exactly when Channel_Used or ROI is missing, otherwise a well-formed summary |
| DataProcessor.ProcessDataContract | utils/data_processor.py:31-61 | the schema error exactly when a required column is missing; otherwise one row per platform, surviving columns exactly as ColumnSurvival says, holding the original records' aggregates |
| Optimizer.Objective | utils/optimizer.py:22 | the objective -c . x is the split's expected return, zero when nothing is spent |
| Optimizer.Feasible | utils/optimizer.py:26-30 | a split meeting the equality and bound constraints exists only for a non-negative budget |
| Optimizer.MaxRoi | utils/optimizer.py:22 | the largest ROI: no ROI exceeds it and some platform has it |
| Optimizer.ArgMax | utils/optimizer.py:22 | the first platform whose ROI is the largest |
| Optimizer.GapIdentity | utils/optimizer.py:22-27 | what a split loses against putting every unit at ROI m is sum x * m minus its objective |
| Optimizer.GapNonNegative | utils/optimizer.py:22-30 | when every ROI is at most m, a non-negative split never gains against putting every unit at m |
| Optimizer.GapZero | utils/optimizer.py:22-30 | a non-negative split that loses nothing against m puts nothing on a platform whose ROI is below m |
| Optimizer.ObjectiveBound | utils/optimizer.py:22-30 | a non-negative split returns at most sum x times any upper bound on the ROIs |
| Optimizer.FeasibleBound | utils/optimizer.py:22-30 | every split meeting the equality and bound constraints returns at most total_budget * max ROI |
| Optimizer.SolvedValue | utils/optimizer.py:33-39 | a solved split returns exactly total_budget * max ROI |
| Optimizer.ReferenceSolve | utils/optimizer.py:33-39 | an optimal split: the whole budget on the first platform of maximal ROI, zero elsewhere |
| Optimizer.OneHotOptimal | utils/optimizer.py:33-39 | the whole non-negative budget on one platform of maximal ROI is an optimum |
| Optimizer.SolvedIsOptimal | utils/optimizer.py:33-39 | no feasible split returns more than a solved one |
| Optimizer.OptimalIsSolved | utils/optimizer.py:33-39 | a feasible split that no feasible split beats counts as solved |
| Optimizer.ReachesOptimum | utils/optimizer.py:33-39 | a split that no feasible split beats returns at least total_budget * max ROI |
| Optimizer.OptimalValueSolved | utils/optimizer.py:33-39 | a feasible split returning total_budget * max ROI counts as solved |
| Optimizer.OptimalIffSolved | utils/optimizer.py:21-39 | SolvedOptimally holds exactly for the LP's optima |
| Optimizer.FeasibleIffPlatforms | utils/optimizer.py:25-30 | with a positive budget the LP is feasible exactly when there is a platform |
| Optimizer.OptimumFundsOnlyMaximisers | utils/optimizer.py:33-39 | any optimum puts no budget on a platform whose ROI is below the maximum |
| Optimizer.Shape | utils/optimizer.py:45-54 | one row per platform in input order, carrying that platform, its ROI and the solver's allocation for it |
| Optimizer.ShapeRows | utils/optimizer.py:45-54 | every unsorted result row has a non-negative allocation, return = allocation * ROI, percentage = allocation / budget * 100, comes from the input, and is unfunded below the max ROI |
| Optimizer.InsertByReturn | utils/optimizer.py:57 | inserting a row keeps the other rows, adds the row once and keeps descending order |
| Optimizer.SortByReturn | utils/optimizer.py:57 | the result is in descending order of expected return and is a permutation of the input |
| Optimizer.TotalSort | utils/optimizer.py:57 | sorting keeps every column total |
| Optimizer.ShapeAllocationTotal | utils/optimizer.py:45-54 | the allocations add up to sum x |
| Optimizer.ShapeExpectedTotal | utils/optimizer.py:46-54 | the expected returns add up to the LP objective |
| Optimizer.ShapePercentageTotal | utils/optimizer.py:53 | the percentages add up to sum x / total_budget * 100 |
| Optimizer.SortedTableRows | utils/optimizer.py:45-57 | the sorted table is a reordering of the unsorted rows: every platform's own row is in it, and every row is consistent, comes from the input and is unfunded below the max ROI |
| Optimizer.SortedTableTotals | utils/optimizer.py:45-57 | the sorted table spends exactly the budget, 100 percent of it, and returns total_budget * max ROI |
| Optimizer.AllocateBudget | utils/optimizer.py:41-57 | a failure exactly when the solver fails, carrying "Optimization failed: " and its message; otherwise the unsorted rows reordered into descending expected return |
| Optimizer.AllocateBudgetContract | utils/optimizer.py:41-57 | solver failure gives the "Optimization failed: " ValueError; success gives a sorted permutation of consistent rows that holds every platform's own row, spending the budget (100 percent) for budget * max ROI |
| Optimizer.PlatformInputs | utils/optimizer.py:18-19 | KeyError('ROI') exactly when the table has no ROI column; otherwise each row's platform and ROI, in row order |
| Optimizer.OptimizeBudget | utils/optimizer.py:5-57 | KeyError('ROI') without an ROI column; otherwise the result of allocating the budget over the table's platforms and ROIs |
| Optimizer.ProcessRoiColumn | utils/data_processor.py:46-55 | process_data keeps ROI exactly when every platform has an ROI value, and then holds each platform's mean ROI |
| Optimizer.RoiSurvival | utils/data_processor.py:47-55 | ROI survives process_data exactly when every platform has an ROI value |
| Optimizer.RoiValues | utils/data_processor.py:46-52 | each surviving ROI cell is the mean of its platform's ROI values |
| Optimizer.InputsOfSummary | utils/optimizer.py:18-19 | the optimizer's inputs keep a summary's platforms, in order and distinct, with each row's ROI |
| Optimizer.OptimizerInputsFromProcess | utils/optimizer.py:18-19 | on process_data's output: KeyError('ROI') exactly when some platform has no ROI value; otherwise one entry per distinct platform carrying its mean ROI |
| Optimizer.ExampleSolve | utils/optimizer.py:33-39 | for ROIs 1.2, 0.8, 1.5 and budget 10000 the reference solver answers [0, 0, 10000] |
| Optimizer.ExampleOptimal | utils/optimizer.py:33-39 | that answer is optimal |
| Optimizer.ExampleShape | utils/optimizer.py:45-54 | the unsorted rows of that answer, with return 15000 and 100 percent on the third platform |
| Optimizer.ExampleSorted | utils/optimizer.py:57 | sorting puts the third platform first and keeps the tied platforms in input order |
| Optimizer.ExampleTable | utils/optimizer.py:41-57 | the whole result table for that example |

## Left out

- Rounding of the allocation, return and percentage columns to two decimals (utils/optimizer.py:60-62) is not modelled. Numbers are exact reals and floating point is not modelled.
- The LP solver (scipy's `linprog` with HiGHS) is foreign code. Its answer is the `LpOutcome` parameter. Success is required to be an optimum, and `OptimalIffSolved` shows this is exactly LP optimality. Which optimum HiGHS picks among tied maximal ROIs is not modelled.
- Optimizer.OptimizeBudget: requires a positive total budget. The only caller (app.py) enforces a minimum of 1000. With a budget of 0 the source divides by zero (NaN percentages), which is not modelled.
- Optimizer.OptimizeBudget: requires at least one platform row, and Optimizer.AllocateBudget at least one platform. The source does not check for an empty table. scipy's `linprog` rejects an empty objective with its own error before the source's failure branch (utils/optimizer.py:41-42) can run, and that error is not modelled.
- Optimizer.OptimizeBudget: requires a well-formed table, where every present column except Engagement has a value on every row. This is what process_data returns (`DataProcessor.SummariseWellFormed`). A missing ROI handed straight to the solver would fail inside foreign code.
- Optimizer.SortByReturn: a stable insertion sort. pandas' default sort is not stable, so the order of rows with equal expected return may differ.
- DataProcessor.Platforms: the model fixes the order of the output rows to the platforms' first appearance (GroupRows and Summarise place row i at Platforms(rows)[i]), while pandas sorts the group keys. ProcessDataContract and SummaryOneRowPerPlatform do not depend on that order: they state only that the rows cover each distinct platform exactly once.
- Records whose platform cell is missing (pandas' groupby drops NaN keys) are not modelled: a platform is always a string.
- DataProcessor.EngagementOf: a zero Impressions total gives a missing value. pandas gives inf or NaN there.
- The aggregation dictionary entries with value `None` for absent optional columns (utils/data_processor.py:48-51) are modelled by their stated intent: an absent column is not aggregated and does not appear in the output.
- Parsing of numeric text by `pd.to_numeric` is not modelled: a cell that would parse is represented as its `Number`, and any other text as `Text`.
- app.py (the Streamlit UI, file upload, CSV reading) and utils/visualizer.py (charts) are I/O and presentation, outside this model.
