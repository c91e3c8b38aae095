/**
  The driver of the metrics aggregator: the mode chosen by the argument count,
  the accumulation pass, the finalization pass and the report the metric mode
  produces, at variable, function and module level.
 */
module SrcSlice {
  import opened SliceProfiles
  import opened Accumulation
  import opened Finalization

  /** What the program does for a given argument count (the program name counts). */
  datatype Mode = PrintUsage | ProfilesOnly | ComputeMetrics(exportCsv: bool)

  /** Fewer than two arguments: usage only. Exactly two: the countable profiles
      are printed. Three or more: metrics too, and CSV files from four on. */
  function ModeOf(argc: nat): (m: Mode)
    ensures m == PrintUsage <==> argc < 2
    ensures m == ProfilesOnly <==> argc == 2
    ensures m.ComputeMetrics? <==> argc >= 3
    ensures m.ComputeMetrics? ==> (m.exportCsv <==> argc >= 4)
  {
    if argc < 2 then PrintUsage
    else if argc == 2 then ProfilesOnly
    else ComputeMetrics(argc >= 4)
  }

  /** The module level of the report. `sliceCount` is the number of module keys
      of the slicer's output, as the source prints it. */
  datatype ModuleMetrics = ModuleMetrics(
    moduleSize: nat,
    sliceIdentifiers: nat,
    sliceCount: nat,
    avgSliceSize: Option<real>,
    avgSliceIdentifiers: Option<real>)

  /** What a run produces: the usage text, the printed profiles, or the printed
      profiles with the finalized metrics. */
  datatype Outcome =
    | Usage
    | ProfilesPrinted(printed: seq<SliceProfile>)
    | Metrics(printed: seq<SliceProfile>,
              variables: map<string, VariableEntry>,
              functions: map<string, FunctionEntry>,
              moduleLevel: ModuleMetrics,
              exportCsv: bool)

  /** Accumulated totals the finalization loops can divide by: an entry exists
      only when the module size is positive, and every function entry counts a
      slice. */
  predicate Finalizable(t: Totals) {
    && (t.moduleSize == 0 ==> t.variableMetrics == map[] && t.functionMetrics == map[])
    && (forall f :: f in t.functionMetrics ==> t.functionMetrics[f].sliceCount > 0)
  }

  /** No division by zero: whatever the slicer hands over, the accumulation
      pass leaves totals the finalization loops can divide by. */
  lemma AccumulatedFinalizable(profileMap: seq<ModuleSlices>)
    requires ValidProfileMap(profileMap)
    ensures Finalizable(Accumulated(profileMap))
  {
    FlattenHasLines(profileMap);
    var ps := Flatten(profileMap);
    FunctionEntriesBounded(ps);
    ModuleSizeAtLeastTwicePerSlice(ps);
    EmptyTablesWithoutSlices(ps);
  }

  /** The finalized variable table. */
  function FinalVariables(t: Totals): map<string, VariableEntry>
    requires Finalizable(t)
  {
    map name | name in t.variableMetrics :: FinalizeVariable(t.variableMetrics[name], t.moduleSize)
  }

  /** The finalized function table. */
  function FinalFunctions(t: Totals): map<string, FunctionEntry>
    requires Finalizable(t)
  {
    map f | f in t.functionMetrics :: FinalizeFunction(t.functionMetrics[f], t.moduleSize)
  }

  /** The variable level of the report: the accumulated table, finalized. */
  ghost function VariableLevel(profileMap: seq<ModuleSlices>): map<string, VariableEntry>
    requires ValidProfileMap(profileMap)
  {
    AccumulatedFinalizable(profileMap);
    FinalVariables(Accumulated(profileMap))
  }

  /** The function level of the report: the accumulated table, finalized. */
  ghost function FunctionLevel(profileMap: seq<ModuleSlices>): map<string, FunctionEntry>
    requires ValidProfileMap(profileMap)
  {
    AccumulatedFinalizable(profileMap);
    FinalFunctions(Accumulated(profileMap))
  }

  /** The module level of the report: the totals over the counted records and
      their averages, with the number of modules as the slice count. */
  function ModuleLevel(profileMap: seq<ModuleSlices>): (r: ModuleMetrics)
    ensures r.sliceCount == |profileMap|
    ensures r.avgSliceSize.None? <==> Countable(Flatten(profileMap)) == []
    ensures r.avgSliceIdentifiers.None? <==> Countable(Flatten(profileMap)) == []
  {
    var ps := Flatten(profileMap);
    var counted := |Countable(ps)|;
    ModuleMetrics(ModuleSize(ps), IdentifierTotal(ps), |profileMap|,
                  Average(ModuleSize(ps), counted), Average(IdentifierTotal(ps), counted))
  }

  /** The report of the metric mode for the slicer's output `profileMap`. */
  ghost function Report(profileMap: seq<ModuleSlices>, exportCsv: bool): Outcome
    requires ValidProfileMap(profileMap)
  {
    Metrics(Countable(Flatten(profileMap)), VariableLevel(profileMap), FunctionLevel(profileMap),
            ModuleLevel(profileMap), exportCsv)
  }

  /** One run of the program on the slicer's output. */
  method Run(argc: nat, profileMap: seq<ModuleSlices>) returns (outcome: Outcome)
    requires DistinctModuleNames(profileMap)
    requires argc >= 3 ==> ValidProfileMap(profileMap)
    ensures ModeOf(argc) == PrintUsage ==> outcome == Usage
    ensures ModeOf(argc) == ProfilesOnly ==> outcome == ProfilesPrinted(Countable(Flatten(profileMap)))
    ensures ModeOf(argc).ComputeMetrics? ==> outcome == Report(profileMap, ModeOf(argc).exportCsv)
  {
    if argc < 2 {
      return Usage;
    }
    var variableMetrics, functionMetrics, moduleSize, sliceIdentifiers, finalSlices, printed :=
      AccumulateMetrics(profileMap, argc);
    if argc >= 3 {
      AccumulatedFinalizable(profileMap);
      variableMetrics := FinalizeVariables(variableMetrics, moduleSize);
      functionMetrics := FinalizeFunctions(functionMetrics, moduleSize);
      var avgSliceIdentifiers := Average(sliceIdentifiers, finalSlices);
      var avgSliceSize := Average(moduleSize, finalSlices);
      var moduleLevel := ModuleMetrics(moduleSize, sliceIdentifiers, |profileMap|, avgSliceSize, avgSliceIdentifiers);
      outcome := Metrics(printed, variableMetrics, functionMetrics, moduleLevel, argc >= 4);
    } else {
      outcome := ProfilesPrinted(printed);
    }
  }

  // ---------------------------------------------------------------------------
  // What the report means in terms of the records

  /** Variable level: a variable is reported exactly when some countable record
      declares it; its size, identifiers and distance are those of the LAST such
      record in iteration order, and its coverage and spatial ratio divide them
      by the size of the whole module, every record included. */
  lemma VariableReport(profileMap: seq<ModuleSlices>, name: string)
    requires ValidProfileMap(profileMap)
    ensures CountableHaveLines(Flatten(profileMap))
    ensures
      var ps := Flatten(profileMap);
      var variables := VariableLevel(profileMap);
      && (name in variables <==> LastIndex(ps, name) >= 0)
      && (name in variables ==>
            var p := ps[LastIndex(ps, name)];
            var e := variables[name];
            && e.sliceSize == SliceSize(p)
            && e.sliceIdentifiers == SliceIdentifiers(p)
            && e.sliceDistance == SliceDistance(p)
            && ModuleSize(ps) > 0
            && e.sliceCoverage == SliceSize(p) as real / ModuleSize(ps) as real
            && 0.0 < e.sliceCoverage <= 1.0
            && e.sliceSpatial == SliceDistance(p) as real / ModuleSize(ps) as real)
  {
    FlattenHasLines(profileMap);
    var ps := Flatten(profileMap);
    VariableLastWriterWins(ps, name);
    StoredSliceSizesBounded(ps);
    var table := VariableTable(ps);
    assert Accumulated(profileMap) == PassOne(ps);
    if name in table {
      assert VariableLevel(profileMap)[name] == FinalizeVariable(table[name], ModuleSize(ps));
    }
  }

  /** Function level: a function is reported exactly when it owns a countable
      record; its count, size and identifiers are the totals over its records,
      the averages divide them by the count, the first line stays at 0 so the
      function distance is the last line, and coverage and spatial ratio divide
      by the module size. */
  lemma FunctionReport(profileMap: seq<ModuleSlices>, f: string)
    requires ValidProfileMap(profileMap)
    ensures CountableHaveLines(Flatten(profileMap))
    ensures CountableHaveLines(ByFunction(Flatten(profileMap), f))
    ensures
      var ps := Flatten(profileMap);
      var rs := ByFunction(ps, f);
      var functions := FunctionLevel(profileMap);
      && (f in functions <==> rs != [])
      && (f in functions ==>
            var e := functions[f];
            var n := |rs| as real;
            && rs != []
            && e.sliceCount == |rs|
            && e.functionSize == ModuleSize(rs)
            && e.functionIdentifiers == IdentifierTotal(rs)
            && e.avgSliceDistance == DistanceSum(rs) as real / n
            && e.avgSliceSize == ModuleSize(rs) as real / n
            && e.avgSliceIdentifiers == IdentifierTotal(rs) as real / n
            && e.maxLine == MaxLineOf(rs)
            && e.minLine == 0
            && e.functionDistance == MaxLineOf(rs)
            && ModuleSize(ps) > 0
            && e.functionCoverage == ModuleSize(rs) as real / ModuleSize(ps) as real
            && 0.0 < e.functionCoverage <= 1.0
            && e.functionSpatial == MaxLineOf(rs) as real / ModuleSize(ps) as real)
  {
    FlattenHasLines(profileMap);
    var ps := Flatten(profileMap);
    FunctionTotals(ps, f);
    FunctionEntriesBounded(ps);
    var rs := ByFunction(ps, f);
    var table := FunctionTable(ps);
    assert Accumulated(profileMap) == PassOne(ps);
    if rs != [] {
      ByFunctionHasLines(ps, f);
      ModuleSizeAtLeastTwicePerSlice(rs);
      CountableMembers(rs, rs[0]);
      assert table[f] == FunctionSummary(rs);
      assert FunctionLevel(profileMap)[f] == FinalizeFunction(table[f], ModuleSize(ps));
    }
  }

  /** Module level: the averages exist exactly when some record was counted,
      and the average slice size is then at least two lines. */
  lemma ModuleReport(profileMap: seq<ModuleSlices>)
    requires ValidProfileMap(profileMap)
    ensures
      var ps := Flatten(profileMap);
      var m := ModuleLevel(profileMap);
      && (m.avgSliceSize.None? <==> Countable(ps) == [])
      && (m.avgSliceIdentifiers.None? <==> Countable(ps) == [])
      && (m.avgSliceSize.Some? ==> m.avgSliceSize.value >= 2.0)
  {
    FlattenHasLines(profileMap);
    var ps := Flatten(profileMap);
    var counted := |Countable(ps)|;
    ModuleSizeAtLeastTwicePerSlice(ps);
    if counted > 0 {
      AverageAtLeast(ModuleSize(ps), counted, 2);
    }
  }

  /** With no countable record anywhere the report has no entries and no module
      averages: nothing is divided by zero. */
  lemma NothingCountable(profileMap: seq<ModuleSlices>, exportCsv: bool)
    requires ValidProfileMap(profileMap)
    requires Countable(Flatten(profileMap)) == []
    ensures Report(profileMap, exportCsv).variables == map[]
    ensures Report(profileMap, exportCsv).functions == map[]
    ensures Report(profileMap, exportCsv).moduleLevel.avgSliceSize == None
    ensures Report(profileMap, exportCsv).moduleLevel.avgSliceIdentifiers == None
    ensures Report(profileMap, exportCsv).printed == []
  {
    FlattenHasLines(profileMap);
    EmptyTablesWithoutSlices(Flatten(profileMap));
  }

  /** The module names of the slicer's output. */
  function ModuleNames(profileMap: seq<ModuleSlices>): set<string> {
    set m | m in profileMap :: m.name
  }

  /** The slicer's output is a map: no module name occurs twice. */
  predicate DistinctModuleNames(profileMap: seq<ModuleSlices>) {
    forall i, j :: 0 <= i < j < |profileMap| ==> profileMap[i].name != profileMap[j].name
  }

  /** Distinct module names: there are as many names as modules. */
  lemma {:induction false} DistinctNamesCount(profileMap: seq<ModuleSlices>)
    requires DistinctModuleNames(profileMap)
    ensures |ModuleNames(profileMap)| == |profileMap|
  {
    if profileMap != [] {
      var n := |profileMap| - 1;
      var front := profileMap[..n];
      DistinctNamesCount(front);
      assert profileMap == front + [profileMap[n]];
      assert ModuleNames(profileMap) == ModuleNames(front) + {profileMap[n].name};
      assert profileMap[n].name !in ModuleNames(front);
    }
  }

  /** The reported slice count is the number of module keys of the slicer's
      output, not the number of counted slices. */
  lemma SliceCountIsModuleCount(profileMap: seq<ModuleSlices>)
    requires DistinctModuleNames(profileMap)
    ensures ModuleLevel(profileMap).sliceCount == |ModuleNames(profileMap)|
  {
    DistinctNamesCount(profileMap);
  }
}
