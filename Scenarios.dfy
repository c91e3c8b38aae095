/**
  A concrete run of the metric mode: a module with one record.
 */
module Scenarios {
  import opened SliceProfiles
  import opened Accumulation
  import opened Finalization
  import opened SrcSlice

  /** A slicer output of one module flattens to that module's records. */
  lemma OneModule(profileMap: seq<ModuleSlices>)
    requires |profileMap| == 1
    ensures Flatten(profileMap) == profileMap[0].profiles
  {
    assert profileMap[..0] == [];
  }

  /** The accumulators after a single countable record. */
  lemma OneRecord(p: SliceProfile)
    requires HasLines(p) && p.containsDeclaration
    ensures CountableHaveLines([p])
    ensures Countable([p]) == [p]
    ensures ModuleSize([p]) == SliceSize(p)
    ensures IdentifierTotal([p]) == SliceIdentifiers(p)
    ensures VariableTable([p]) == map[p.variableName := SliceEntry(p)]
    ensures FunctionTable([p]) == map[p.functionName := AddSlice(NoFunctionEntry, p)]
  {
    assert [p][..0] == [];
  }

  /** The record of the single-record scenario: size 3, 3 identifiers, distance 15. */
  lemma SingleRecordValues(p: SliceProfile)
    requires p == SliceProfile("v", "f", true, {5, 7}, {20}, {"a"}, {}, {"b", "c"})
    ensures HasLines(p)
    ensures SliceSize(p) == 3 && SliceIdentifiers(p) == 3 && SliceDistance(p) == 15
    ensures MaxLine(p) == 20 && MinLine(p) == 5
  {
    assert p.definitions == {5} + {7};
    assert p.cfunctions == {"b"} + {"c"};
    assert Lines(p) == {5, 7, 20};
    assert 20 in Lines(p) && 5 in Lines(p);
    assert SetMax(Lines(p)) == 20;
    assert SetMin(Lines(p)) == 5;
  }

  /** The accumulators of the single-record scenario. */
  lemma SingleRecordTotals(p: SliceProfile, profileMap: seq<ModuleSlices>)
    requires p == SliceProfile("v", "f", true, {5, 7}, {20}, {"a"}, {}, {"b", "c"})
    requires profileMap == [ModuleSlices("M", [p])]
    ensures ValidProfileMap(profileMap)
    ensures Flatten(profileMap) == [p] && Countable([p]) == [p]
    ensures Accumulated(profileMap) == Totals(map["v" := VariableEntry(3, 3, 15, 0.0, 0.0)],
      map["f" := FunctionEntry(3, 15.0, 1, 20, 0, 3, 0.0, 0.0, 0.0, 0, 0.0)], 3, 3, 1)
  {
    SingleRecordValues(p);
    assert ValidProfileMap(profileMap) by {
      assert profileMap[0].profiles == [p];
    }
    OneModule(profileMap);
    OneRecord(p);
    assert AddSlice(NoFunctionEntry, p) == FunctionEntry(3, 15.0, 1, 20, 0, 3, 0.0, 0.0, 0.0, 0, 0.0);
  }

  /** One countable record with definitions {5, 7}, uses {20}, one data
      dependence and two called functions: size 3, 3 identifiers, distance 15,
      the whole module (coverage 1), spatial ratio 15 / 3, and module averages
      of 3. Its function counts one slice of average distance 15, but its first
      line stays 0, so the function distance is the last line, 20, and the
      function's spatial ratio is 20 / 3. */
  lemma SingleRecord(p: SliceProfile, profileMap: seq<ModuleSlices>)
    requires p == SliceProfile("v", "f", true, {5, 7}, {20}, {"a"}, {}, {"b", "c"})
    requires profileMap == [ModuleSlices("M", [p])]
    ensures ValidProfileMap(profileMap)
    ensures VariableLevel(profileMap).Keys == {"v"}
    ensures VariableLevel(profileMap)["v"] == VariableEntry(3, 3, 15, 1.0, 5.0)
    ensures ModuleLevel(profileMap) == ModuleMetrics(3, 3, 1, Some(3.0), Some(3.0))
    ensures FunctionLevel(profileMap).Keys == {"f"}
    ensures FunctionLevel(profileMap)["f"] == FunctionEntry(3, 15.0, 1, 20, 0, 3, 1.0, 3.0, 3.0, 20, 20.0 / 3.0)
  {
    SingleRecordTotals(p, profileMap);
    SingleRecordValues(p);
    var t := Accumulated(profileMap);
    assert FinalizeVariable(t.variableMetrics["v"], 3) == VariableEntry(3, 3, 15, 1.0, 5.0);
    assert FinalizeFunction(t.functionMetrics["f"], 3)
      == FunctionEntry(3, 15.0, 1, 20, 0, 3, 1.0, 3.0, 3.0, 20, 20.0 / 3.0);
    assert VariableLevel(profileMap) == FinalVariables(t);
    assert FunctionLevel(profileMap) == FinalFunctions(t);
  }
}
