# srcSlice metrics aggregator in Dafny

srcSlice slices C/C++ programs given as srcML. After slicing, its `main`
(`src/cpp/srcslice.cpp`) turns the slice records into metrics at three levels:
per variable, per function and per module. This project models that aggregator
and proves what its tables mean.

The slicer's output is the model's input: a sequence of modules, each with its
slice records in order (`SliceProfiles.ModuleSlices`). The aggregator works in
two passes:

- **Accumulation** (`Accumulation.AccumulateMetrics`, with
  `Accumulation.AccumulateModule` for one module and
  `Accumulation.CountProfile` for one record). The pass walks every record.
  Records without a declaration are skipped; every countable record is printed.
  When the metric argument is given (`argc >= 3`), each countable record also:
  - writes its slice size, identifier count and line distance under its
    variable name, so a later record of the same name wins;
  - folds into its function's sums, count and running maximum and minimum
    line;
  - adds to the module totals `moduleSize`, `sliceIdentifiers` and
    `finalSlices`.
- **Finalization** (`Finalization.FinalizeVariables`,
  `Finalization.FinalizeFunctions`, `Finalization.Average`). Each table entry
  is rewritten in place into ratios against the module size and averages over
  the slice count. Then the two module averages are formed.

`SrcSlice.Run` is the driver. The argument count picks the mode
(`SrcSlice.ModeOf`):
- fewer than two arguments prints the usage text;
- exactly two prints the profiles;
- three or more also computes the metrics;
- four or more also asks for CSV files.

Each method is proved against a specification function:
- `Accumulation.PassOne` folds over the records walked so far;
- `Accumulation.Accumulated` does so over the whole input;
- `SrcSlice.VariableLevel`, `SrcSlice.FunctionLevel` and
  `SrcSlice.ModuleLevel` describe the finalized report.

Lemmas then relate those functions to independent definitions over the records
themselves:
- the last record of a name (`Accumulation.LastIndex`);
- the records of one function (`Accumulation.ByFunction`);
- the countable records (`Accumulation.Countable`).

Line numbers and sizes are `nat`. The source's `double` ratios are exact
`real`s. A module average is `None` when nothing was counted; the source
computes it as 0/0 there.

In these places the model keeps the code's behaviour as written:

- Running function finalization twice is not harmless. A second run divides
  `avgSliceDistance` by `sliceCount` again (line 70).
  `Finalization.FunctionFinalizationDividesOnce` characterises exactly when a
  second run changes the entry. The program runs the pass once.
- An empty `uses` or `definitions` set on a countable record is not reported
  as an error. The code takes `std::minmax_element` of the empty range and
  dereferences its end iterator (lines 32-35). That is undefined behaviour, so
  the model makes non-empty line sets a precondition of the metric mode
  (`SliceProfiles.ValidProfileMap`). In profiles-only mode no such
  precondition exists, as in the code.
- The function `minLine` starts at the map default 0 and is combined with
  `std::min` (lines 49-50), so it stays 0. The function distance is therefore
  the function's last line (line 73).
- The module "Slice count" is the number of module keys (line 105), not the
  number of counted slices.
- With no countable record, the variable and function loops have nothing to
  divide. `SrcSlice.AccumulatedFinalizable` proves that an entry exists only
  when the module size is positive.

## Model

| member | source | states |
|---|---|---|
| SliceProfiles.SliceSize | src/cpp/srcslice.cpp:28-29 | the slice size of a record with lines is at least 2 (one definition and one use) |
| SliceProfiles.SliceIdentifiers | src/cpp/srcslice.cpp:30-31 | the identifier count includes every data dependence, alias and called function, and is zero exactly when the slice depends on none |
| SliceProfiles.MinMaxElement | src/cpp/srcslice.cpp:32-33 | the scan of a non-empty line set returns its least and greatest element, which bound every element |
| SliceProfiles.MaxLine | src/cpp/srcslice.cpp:34 | the larger of the last use and the last definition is the greatest line of the slice |
| SliceProfiles.MinLine | src/cpp/srcslice.cpp:35 | the smaller of the first use and the first definition is the least line of the slice |
| SliceProfiles.SliceDistance | src/cpp/srcslice.cpp:37 | the slice distance is non-negative, bounds the gap between any two lines of the slice, and equals greatest minus least line |
| Accumulation.FlattenMembers | src/cpp/srcslice.cpp:22-23 | the walk visits exactly the records of all modules |
| Accumulation.CountableMembers | src/cpp/srcslice.cpp:25 | the counted records are exactly the walked records with a declaration |
| Accumulation.CountableStep | src/cpp/srcslice.cpp:25 | proof step for the loop invariant: one more walked record joins the counted (and printed) records exactly when it has a declaration |
| Accumulation.CountProfile | src/cpp/srcslice.cpp:28-52 | one countable record overwrites its variable's entry with its size, identifiers and distance, folds into its function's entry, and adds to the three module totals |
| Accumulation.AccumulateModule | src/cpp/srcslice.cpp:23-57 | after one module's records, the printed records are the countable ones walked so far, and the accumulators equal the fold over all records walked so far (untouched without the metric argument) |
| Accumulation.AccumulateMetrics | src/cpp/srcslice.cpp:22-58 | after the whole input, the printed records are all countable records in order, and the accumulators equal the fold over every record, or stay empty when `argc < 3` |
| Accumulation.PassOneStep | src/cpp/srcslice.cpp:25-52 | proof step for the loop invariant: a record without a declaration leaves every accumulator unchanged, and a countable one applies exactly the one-record update |
| Accumulation.CountableOnlyTotals | src/cpp/srcslice.cpp:38-40 | module size and identifier total over all records equal those over the countable records alone |
| Accumulation.CountableOnlyTables | src/cpp/srcslice.cpp:25 | records without a declaration change neither the variable table nor the function table |
| Accumulation.ModuleSizeAtLeastTwicePerSlice | src/cpp/srcslice.cpp:38-39 | the module size is at least twice the number of counted slices, and is zero exactly when nothing was counted |
| Accumulation.ModuleSizeSplit | src/cpp/srcslice.cpp:38 | the module size of two consecutive runs of records is the sum of theirs |
| Accumulation.EveryRecordCounts | src/cpp/srcslice.cpp:28-38 | every countable record contributes its slice size to the module size, even when a later record of the same name overwrites its variable entry |
| Accumulation.VariableLastWriterWins | src/cpp/srcslice.cpp:28-37 | a variable has an entry exactly when some countable record declares it, and the entry holds size, identifiers and distance of the last such record |
| Accumulation.StoredSliceSizesBounded | src/cpp/srcslice.cpp:28-38 | every stored slice size is positive and at most the module size |
| Accumulation.SummaryStep | src/cpp/srcslice.cpp:42-52 | proof step for `FunctionTotals`: adding a record to a function's own records adds it to that function's sums, count and extremes |
| Accumulation.FunctionTotals | src/cpp/srcslice.cpp:42-52 | a function has an entry exactly when it owns a countable record, and the entry is the sums, count and largest last line over its records |
| Accumulation.MaxLineOfIsMaximum | src/cpp/srcslice.cpp:47-48 | a function's `maxLine` bounds the last line of each of its records and is attained by one of them (0 without records) |
| Accumulation.FunctionEntriesBounded | src/cpp/srcslice.cpp:46-52 | every function entry counts a slice, its size is at most the module size, and its `minLine` stays 0 |
| Accumulation.EmptyTablesWithoutSlices | src/cpp/srcslice.cpp:25-52 | without a countable record both tables stay empty |
| Finalization.FinalizeVariable | src/cpp/srcslice.cpp:63-64 | finalizing keeps size, identifiers and distance; coverage and spatial ratio are non-negative, and coverage lies in (0, 1] when the size is positive and part of the module size |
| Finalization.FinalizeFunction | src/cpp/srcslice.cpp:69-74 | finalizing keeps sums, count and extremes; coverage lies in (0, 1] when the size is positive and part of the module size; distance and spatial ratio are non-negative when the first line does not exceed the last |
| Finalization.Average | src/cpp/srcslice.cpp:101-102 | a module average is unavailable exactly when nothing was counted, and otherwise times the count gives the total |
| Finalization.AverageAtLeast | src/cpp/srcslice.cpp:102 | an average over items of at least a given size is at least that size |
| Finalization.FinalizeVariables | src/cpp/srcslice.cpp:62-65 | the loop keeps the variable names and finalizes every entry against the module size |
| Finalization.FinalizeFunctions | src/cpp/srcslice.cpp:68-75 | the loop keeps the function names and finalizes every entry |
| Finalization.VariableFinalizationIdempotent | src/cpp/srcslice.cpp:62-65 | finalizing a variable entry twice equals finalizing it once |
| Finalization.FunctionFinalizationDividesOnce | src/cpp/srcslice.cpp:70 | a second function finalization leaves the entry unchanged exactly when the slice count is 1 or the distance average is 0 |
| SrcSlice.ModeOf | src/cpp/srcslice.cpp:6-8 | usage below two arguments, profiles only at exactly two, metrics from three (line 27, 60), CSV from four (line 110) |
| SrcSlice.AccumulatedFinalizable | src/cpp/srcslice.cpp:60-75 | after accumulation, a table entry exists only when the module size is positive, and every function entry counts a slice, so no finalization step divides by zero |
| SrcSlice.Run | src/cpp/srcslice.cpp:5-110 | a run prints usage, or the countable profiles, or those together with the finalized report, as the argument count selects |
| SrcSlice.VariableReport | src/cpp/srcslice.cpp:28-65 | a reported variable is one some countable record declares; its size, identifiers and distance are the last such record's, its coverage is that size over the size of the whole module and lies in (0, 1], and its spatial ratio is that distance over the module size |
| SrcSlice.FunctionReport | src/cpp/srcslice.cpp:42-75 | a reported function is one owning a countable record; count, size and identifiers are totals over its records; the three averages divide the totals by the count; the first line is 0 so the distance is the last line; coverage lies in (0, 1] |
| SrcSlice.ModuleLevel | src/cpp/srcslice.cpp:101-105 | the reported slice count is the number of modules of the input, and each module average is unavailable exactly when no record was counted |
| SrcSlice.ModuleReport | src/cpp/srcslice.cpp:101-102 | the module averages exist exactly when some record was counted, and the average slice size is then at least 2 |
| SrcSlice.NothingCountable | src/cpp/srcslice.cpp:60-102 | with no countable record the report has no entries, prints nothing and has no module averages |
| SrcSlice.DistinctNamesCount | src/cpp/srcslice.cpp:22 | module keys are distinct, so there are as many module names as modules |
| SrcSlice.SliceCountIsModuleCount | src/cpp/srcslice.cpp:105 | the reported slice count is the number of distinct module names, not the number of slices |
| Scenarios.SingleRecord | src/cpp/srcslice.cpp:28-102 | one record with definitions {5, 7}, uses {20}, one data dependence and two called functions reports size 3, 3 identifiers, distance 15, coverage 1, spatial ratio 5 and module averages 3; its function reports one slice of average distance 15 and, because its first line stays 0, function distance 20 and spatial ratio 20 / 3 |

## Left out

- Parsing srcML and building the slices (`SrcSlicePolicy`, `srcSAXController`, lines 10-14) are calls into code that is not part of this model. Their result `profileMap` is the model's input.
- `std::unordered_map` iteration order is unspecified. The model fixes one order: modules in sequence order, records in order. "Last writer wins" is stated against that order. The map's distinct keys are a precondition of `SrcSlice.Run` (`SrcSlice.DistinctModuleNames`).
- `PrintProfile` (line 55) is modelled as which records are printed and in what order. The printed text is not modelled.
- The console report (lines 77-107) and the CSV export (lines 110-137) are output formatting and file I/O. They are not modelled, and neither are their quirks:
  - the module CSV writes the totals `moduleSize` and `sliceIdentifiers` in the average columns;
  - the function and variable CSVs repeat the header before every row;
  - the function CSV omits the separators after `avgSliceDistance` and the row ends.
- IEEE `double` rounding, and the `inf`/NaN of a division by zero, are not modelled. Ratios are exact reals. The module averages are `None` where the program would divide 0 by 0.
- Accumulation.CountProfile: does not model the 32-bit `unsigned int` wrap-around of `moduleSize`, `sliceIdentifiers` and `finalSlices`, or the `double` to `unsigned` conversions; the totals are unbounded naturals.
- The map-of-maps tables keyed by metric name are modelled as records with one field per metric. A field never written reads as 0, as a missing key of the inner map does.
- Undefined behaviour on a countable record with no uses or no definitions is excluded by precondition in the metric mode (`SliceProfiles.ValidProfileMap`). It is not modelled as an outcome.
