/**
  The accumulation pass of the metrics aggregator: one walk over every module's
  slice records that fills the per-variable table, the per-function table and
  the three module-wide running totals.

  The accumulators are specified by folds over the records processed so far, each
  extended at the right by one record, which is the shape of the loop's
  invariant. Beside each fold stands an independent reference definition
  (a filter, a last index) and a lemma connecting the two.
 */
module Accumulation {
  import opened SliceProfiles

  /** Per-variable metrics. The coverage and spatial ratios are filled in by
      finalization; during accumulation they hold the map default 0. */
  datatype VariableEntry = VariableEntry(
    sliceSize: nat,
    sliceIdentifiers: nat,
    sliceDistance: nat,
    sliceCoverage: real,
    sliceSpatial: real)

  /** Per-function metrics. `avgSliceDistance` holds the running SUM of the slice
      distances during accumulation and becomes an average only at finalization.
      The fields from `functionCoverage` on are written by finalization. */
  datatype FunctionEntry = FunctionEntry(
    functionIdentifiers: nat,
    avgSliceDistance: real,
    sliceCount: nat,
    maxLine: nat,
    minLine: nat,
    functionSize: nat,
    functionCoverage: real,
    avgSliceSize: real,
    avgSliceIdentifiers: real,
    functionDistance: int,
    functionSpatial: real)

  /** What `functionMetrics[f]` reads as before anything was stored for `f`. */
  const NoFunctionEntry := FunctionEntry(0, 0.0, 0, 0, 0, 0, 0.0, 0.0, 0.0, 0, 0.0)

  function EntryOf(table: map<string, FunctionEntry>, f: string): FunctionEntry {
    if f in table then table[f] else NoFunctionEntry
  }

  /** The accumulators of the driver, together. */
  datatype Totals = Totals(
    variableMetrics: map<string, VariableEntry>,
    functionMetrics: map<string, FunctionEntry>,
    moduleSize: nat,
    sliceIdentifiers: nat,
    finalSlices: nat)

  /** The accumulators before the first record. */
  const NoTotals := Totals(map[], map[], 0, 0, 0)

  // ---------------------------------------------------------------------------
  // The record order of the walk and the countable records

  /** All records of all modules, module after module, in iteration order. */
  function Flatten(profileMap: seq<ModuleSlices>): seq<SliceProfile> {
    if profileMap == [] then []
    else
      var n := |profileMap| - 1;
      Flatten(profileMap[..n]) + profileMap[n].profiles
  }

  /** The records that take part in the metrics, in order. */
  function Countable(ps: seq<SliceProfile>): seq<SliceProfile> {
    if ps == [] then []
    else
      var n := |ps| - 1;
      Countable(ps[..n]) + (if ps[n].containsDeclaration then [ps[n]] else [])
  }

  // ---------------------------------------------------------------------------
  // The folds: the value of each accumulator after the records `ps`

  /** `moduleSize`: the sum of the slice sizes of the countable records. */
  function ModuleSize(ps: seq<SliceProfile>): nat {
    if ps == [] then 0
    else
      var k := |ps| - 1;
      ModuleSize(ps[..k]) + (if ps[k].containsDeclaration then SliceSize(ps[k]) else 0)
  }

  /** The module-wide `sliceIdentifiers` total over the countable records. */
  function IdentifierTotal(ps: seq<SliceProfile>): nat {
    if ps == [] then 0
    else
      var k := |ps| - 1;
      IdentifierTotal(ps[..k]) + (if ps[k].containsDeclaration then SliceIdentifiers(ps[k]) else 0)
  }

  /** Sum of the slice distances of the countable records. */
  ghost function DistanceSum(ps: seq<SliceProfile>): nat
    requires CountableHaveLines(ps)
  {
    if ps == [] then 0
    else
      var k := |ps| - 1;
      DistanceSum(ps[..k]) + (if ps[k].containsDeclaration then SliceDistance(ps[k]) else 0)
  }

  /** Largest last line over the countable records, 0 when there are none. */
  ghost function MaxLineOf(ps: seq<SliceProfile>): nat
    requires CountableHaveLines(ps)
  {
    if ps == [] then 0
    else
      var k := |ps| - 1;
      if ps[k].containsDeclaration then Max(MaxLine(ps[k]), MaxLineOf(ps[..k])) else MaxLineOf(ps[..k])
  }

  /** The three values one countable record writes under its variable name. */
  ghost function SliceEntry(p: SliceProfile): VariableEntry
    requires HasLines(p)
  {
    VariableEntry(SliceSize(p), SliceIdentifiers(p), SliceDistance(p), 0.0, 0.0)
  }

  /** The per-variable table: each countable record overwrites the entry under its
      variable name. */
  ghost function VariableTable(ps: seq<SliceProfile>): map<string, VariableEntry>
    requires CountableHaveLines(ps)
  {
    if ps == [] then map[]
    else
      var k := |ps| - 1;
      var t := VariableTable(ps[..k]);
      if ps[k].containsDeclaration then t[ps[k].variableName := SliceEntry(ps[k])] else t
  }

  /** One countable record's contribution to its function's entry: sums and count
      grow, the last line is a running maximum, the first line a running minimum
      that starts from the map default 0. */
  ghost function AddSlice(e: FunctionEntry, p: SliceProfile): FunctionEntry
    requires HasLines(p)
  {
    e.(functionIdentifiers := e.functionIdentifiers + SliceIdentifiers(p),
       avgSliceDistance := e.avgSliceDistance + SliceDistance(p) as real,
       sliceCount := e.sliceCount + 1,
       maxLine := Max(MaxLine(p), e.maxLine),
       minLine := Min(MinLine(p), e.minLine),
       functionSize := e.functionSize + SliceSize(p))
  }

  /** The per-function table: each countable record folds into its function's entry. */
  ghost function FunctionTable(ps: seq<SliceProfile>): map<string, FunctionEntry>
    requires CountableHaveLines(ps)
  {
    if ps == [] then map[]
    else
      var k := |ps| - 1;
      var t := FunctionTable(ps[..k]);
      if ps[k].containsDeclaration then t[ps[k].functionName := AddSlice(EntryOf(t, ps[k].functionName), ps[k])] else t
  }

  /** The accumulators after the records `ps`. */
  ghost function PassOne(ps: seq<SliceProfile>): Totals
    requires CountableHaveLines(ps)
  {
    Totals(VariableTable(ps), FunctionTable(ps), ModuleSize(ps), IdentifierTotal(ps), |Countable(ps)|)
  }

  /** The accumulators after every record of the slicer's output. */
  ghost function Accumulated(profileMap: seq<ModuleSlices>): Totals
    requires ValidProfileMap(profileMap)
  {
    FlattenHasLines(profileMap);
    PassOne(Flatten(profileMap))
  }

  // ---------------------------------------------------------------------------
  // Reference definitions

  /** The countable records of function `f`, in order. */
  function ByFunction(ps: seq<SliceProfile>, f: string): seq<SliceProfile> {
    if ps == [] then []
    else
      var k := |ps| - 1;
      ByFunction(ps[..k], f) + (if ps[k].containsDeclaration && ps[k].functionName == f then [ps[k]] else [])
  }

  /** Index of the last countable record named `name`, or -1 when there is none. */
  function LastIndex(ps: seq<SliceProfile>, name: string): (i: int)
    ensures -1 <= i < |ps|
    ensures i >= 0 ==> ps[i].containsDeclaration && ps[i].variableName == name
    ensures forall j :: i < j < |ps| ==> !(ps[j].containsDeclaration && ps[j].variableName == name)
  {
    if ps == [] then -1
    else
      var k := |ps| - 1;
      if ps[k].containsDeclaration && ps[k].variableName == name then k else LastIndex(ps[..k], name)
  }

  /** A function's entry as the sums, count and extremes of its own records `rs`
      (all countable), with the first line at the default 0. */
  ghost function FunctionSummary(rs: seq<SliceProfile>): FunctionEntry
    requires CountableHaveLines(rs)
  {
    NoFunctionEntry.(
      functionIdentifiers := IdentifierTotal(rs),
      avgSliceDistance := DistanceSum(rs) as real,
      sliceCount := |rs|,
      maxLine := MaxLineOf(rs),
      functionSize := ModuleSize(rs))
  }

  // ---------------------------------------------------------------------------
  // Lemmas

  /** Every module's records have lines, so all records together have lines. */
  lemma {:induction false} FlattenHasLines(profileMap: seq<ModuleSlices>)
    requires ValidProfileMap(profileMap)
    ensures CountableHaveLines(Flatten(profileMap))
  {
    if profileMap != [] {
      var n := |profileMap| - 1;
      FlattenHasLines(profileMap[..n]);
      var a, b := Flatten(profileMap[..n]), profileMap[n].profiles;
      assert CountableHaveLines(b);
      forall i | 0 <= i < |a + b| && (a + b)[i].containsDeclaration
        ensures HasLines((a + b)[i])
      {
        if i >= |a| {
          assert (a + b)[i] == b[i - |a|];
        }
      }
    }
  }

  /** A record is among the flattened records exactly when some module holds it. */
  lemma {:induction false} FlattenMembers(profileMap: seq<ModuleSlices>, p: SliceProfile)
    ensures p in Flatten(profileMap) <==> exists m :: m in profileMap && p in m.profiles
  {
    if profileMap != [] {
      var n := |profileMap| - 1;
      FlattenMembers(profileMap[..n], p);
      assert profileMap == profileMap[..n] + [profileMap[n]];
    }
  }

  /** Countable keeps exactly the records with a declaration, and no more of them
      than there are records. */
  lemma {:induction false} CountableMembers(ps: seq<SliceProfile>, p: SliceProfile)
    ensures |Countable(ps)| <= |ps|
    ensures p in Countable(ps) <==> p in ps && p.containsDeclaration
  {
    if ps != [] {
      var k := |ps| - 1;
      CountableMembers(ps[..k], p);
      assert ps == ps[..k] + [ps[k]];
    }
  }

  /** Every countable record has size at least two, so the module size is at least
      twice the number of countable records; in particular it is zero exactly when
      there are none. */
  lemma {:induction false} ModuleSizeAtLeastTwicePerSlice(ps: seq<SliceProfile>)
    requires CountableHaveLines(ps)
    ensures ModuleSize(ps) >= 2 * |Countable(ps)|
    ensures ModuleSize(ps) == 0 <==> |Countable(ps)| == 0
  {
    if ps != [] {
      var k := |ps| - 1;
      ModuleSizeAtLeastTwicePerSlice(ps[..k]);
    }
  }

  /** A function's `maxLine` is the largest last line of its records, 0 when there
      are none. */
  lemma {:induction false} MaxLineOfIsMaximum(ps: seq<SliceProfile>)
    requires CountableHaveLines(ps)
    ensures forall i :: 0 <= i < |ps| && ps[i].containsDeclaration ==> MaxLine(ps[i]) <= MaxLineOf(ps)
    ensures Countable(ps) == [] ==> MaxLineOf(ps) == 0
    ensures Countable(ps) != [] ==>
      exists i :: 0 <= i < |ps| && ps[i].containsDeclaration && MaxLine(ps[i]) == MaxLineOf(ps)
  {
    if ps != [] {
      var k := |ps| - 1;
      MaxLineOfIsMaximum(ps[..k]);
      if Countable(ps[..k]) != [] {
        var i :| 0 <= i < k && ps[..k][i].containsDeclaration && MaxLine(ps[..k][i]) == MaxLineOf(ps[..k]);
        assert ps[i] == ps[..k][i];
      }
    }
  }

  /** Name collisions: a variable has an entry exactly when some countable record
      carries its name, and the entry holds the values of the LAST such record;
      earlier ones are overwritten. */
  lemma {:induction false} VariableLastWriterWins(ps: seq<SliceProfile>, name: string)
    requires CountableHaveLines(ps)
    ensures name in VariableTable(ps) <==> LastIndex(ps, name) >= 0
    ensures name in VariableTable(ps) ==> VariableTable(ps)[name] == SliceEntry(ps[LastIndex(ps, name)])
  {
    if ps != [] {
      var k := |ps| - 1;
      VariableLastWriterWins(ps[..k], name);
    }
  }

  /** Every stored slice size is positive and part of the module size. */
  lemma {:induction false} StoredSliceSizesBounded(ps: seq<SliceProfile>)
    requires CountableHaveLines(ps)
    ensures forall name :: name in VariableTable(ps) ==> 0 < VariableTable(ps)[name].sliceSize <= ModuleSize(ps)
  {
    if ps != [] {
      var k := |ps| - 1;
      StoredSliceSizesBounded(ps[..k]);
    }
  }

  /** Appending one countable record to a function's own records adds it to the
      summary exactly as the accumulation step does. */
  lemma SummaryStep(rs: seq<SliceProfile>, p: SliceProfile)
    requires CountableHaveLines(rs) && HasLines(p) && p.containsDeclaration
    ensures CountableHaveLines(rs + [p])
    ensures FunctionSummary(rs + [p]) == AddSlice(FunctionSummary(rs), p)
  {
    var after := rs + [p];
    assert after[..|rs|] == rs;
  }

  /** The records of one function among `ps` are countable records of `f`. */
  lemma {:induction false} ByFunctionHasLines(ps: seq<SliceProfile>, f: string)
    requires CountableHaveLines(ps)
    ensures CountableHaveLines(ByFunction(ps, f))
    ensures forall i :: 0 <= i < |ByFunction(ps, f)| ==>
      ByFunction(ps, f)[i].containsDeclaration && ByFunction(ps, f)[i].functionName == f
  {
    if ps != [] {
      var k := |ps| - 1;
      ByFunctionHasLines(ps[..k], f);
    }
  }

  /** Function totals: a function has an entry exactly when it owns a countable
      record, and the entry is the summary of exactly those records: their count,
      the sums of their sizes, identifiers and distances, and their largest line. */
  lemma {:induction false} FunctionTotals(ps: seq<SliceProfile>, f: string)
    requires CountableHaveLines(ps)
    ensures CountableHaveLines(ByFunction(ps, f))
    ensures f in FunctionTable(ps) <==> ByFunction(ps, f) != []
    ensures f in FunctionTable(ps) ==> FunctionTable(ps)[f] == FunctionSummary(ByFunction(ps, f))
  {
    ByFunctionHasLines(ps, f);
    if ps != [] {
      var k := |ps| - 1;
      var p := ps[k];
      FunctionTotals(ps[..k], f);
      var before := ByFunction(ps[..k], f);
      if p.containsDeclaration && p.functionName == f {
        assert ByFunction(ps, f) == before + [p];
        assert EntryOf(FunctionTable(ps[..k]), f) == FunctionSummary(before);
        SummaryStep(before, p);
      } else {
        assert ByFunction(ps, f) == before;
      }
    }
  }

  /** Every function entry counts at least one slice, its size is part of the
      module size, and its first line never leaves the map default 0. */
  lemma {:induction false} FunctionEntriesBounded(ps: seq<SliceProfile>)
    requires CountableHaveLines(ps)
    ensures forall f :: f in FunctionTable(ps) ==>
      && FunctionTable(ps)[f].sliceCount > 0
      && FunctionTable(ps)[f].functionSize <= ModuleSize(ps)
      && FunctionTable(ps)[f].minLine == 0
  {
    if ps != [] {
      var k := |ps| - 1;
      FunctionEntriesBounded(ps[..k]);
    }
  }

  /** Filtering, totals: records without a declaration add nothing to the module
      totals. */
  lemma {:induction false} CountableOnlyTotals(ps: seq<SliceProfile>)
    ensures ModuleSize(Countable(ps)) == ModuleSize(ps)
    ensures IdentifierTotal(Countable(ps)) == IdentifierTotal(ps)
    ensures |Countable(Countable(ps))| == |Countable(ps)|
  {
    if ps != [] {
      var k := |ps| - 1;
      CountableOnlyTotals(ps[..k]);
      var rs := Countable(ps[..k]);
      if ps[k].containsDeclaration {
        assert Countable(ps) == rs + [ps[k]];
        assert (rs + [ps[k]])[..|rs|] == rs;
      } else {
        assert Countable(ps) == rs;
      }
    }
  }

  /** The module size of consecutive runs of records adds up. */
  lemma {:induction false} ModuleSizeSplit(a: seq<SliceProfile>, b: seq<SliceProfile>)
    ensures ModuleSize(a + b) == ModuleSize(a) + ModuleSize(b)
  {
    if b == [] {
      assert a + b == a;
    } else {
      var k := |b| - 1;
      ModuleSizeSplit(a, b[..k]);
      assert (a + b)[..|a + b| - 1] == a + b[..k];
    }
  }

  /** Every countable record adds its slice size to the module size, whether or
      not a later record of the same name overwrites its variable entry. */
  lemma EveryRecordCounts(ps: seq<SliceProfile>, i: nat)
    requires i < |ps| && ps[i].containsDeclaration
    ensures ModuleSize(ps) == ModuleSize(ps[..i]) + SliceSize(ps[i]) + ModuleSize(ps[i + 1..])
  {
    assert ps == ps[..i] + [ps[i]] + ps[i + 1..];
    ModuleSizeSplit(ps[..i] + [ps[i]], ps[i + 1..]);
    ModuleSizeSplit(ps[..i], [ps[i]]);
    assert [ps[i]][..0] == [];
  }

  /** Without a countable record both tables stay empty. */
  lemma {:induction false} EmptyTablesWithoutSlices(ps: seq<SliceProfile>)
    requires CountableHaveLines(ps)
    ensures Countable(ps) == [] ==> VariableTable(ps) == map[] && FunctionTable(ps) == map[]
  {
    if ps != [] {
      var k := |ps| - 1;
      EmptyTablesWithoutSlices(ps[..k]);
      if Countable(ps) == [] {
        assert !ps[k].containsDeclaration;
      }
    }
  }

  /** Filtering, tables: records without a declaration change neither the
      variable table nor the function table. */
  lemma {:induction false} CountableOnlyTables(ps: seq<SliceProfile>)
    requires CountableHaveLines(ps)
    ensures CountableHaveLines(Countable(ps))
    ensures VariableTable(Countable(ps)) == VariableTable(ps)
    ensures FunctionTable(Countable(ps)) == FunctionTable(ps)
  {
    if ps != [] {
      var k := |ps| - 1;
      CountableOnlyTables(ps[..k]);
      var rs := Countable(ps[..k]);
      if ps[k].containsDeclaration {
        var rs' := rs + [ps[k]];
        assert Countable(ps) == rs';
        assert rs'[..|rs|] == rs;
        assert CountableHaveLines(rs');
      } else {
        assert Countable(ps) == rs;
      }
    }
  }

  /** What one countable record does to the accumulators: it overwrites its
      variable's entry, folds into its function's entry and adds to the three
      module totals. */
  ghost function CountSlice(t: Totals, p: SliceProfile): Totals
    requires HasLines(p)
  {
    Totals(
      t.variableMetrics[p.variableName := SliceEntry(p)],
      t.functionMetrics[p.functionName := AddSlice(EntryOf(t.functionMetrics, p.functionName), p)],
      t.moduleSize + SliceSize(p),
      t.sliceIdentifiers + SliceIdentifiers(p),
      t.finalSlices + 1)
  }

  /** One record more: a record without a declaration leaves every accumulator as
      it was; a countable one changes them as CountSlice says. */
  lemma PassOneStep(done: seq<SliceProfile>, p: SliceProfile)
    requires CountableHaveLines(done) && (p.containsDeclaration ==> HasLines(p))
    ensures CountableHaveLines(done + [p])
    ensures !p.containsDeclaration ==> PassOne(done + [p]) == PassOne(done)
    ensures p.containsDeclaration ==> PassOne(done + [p]) == CountSlice(PassOne(done), p)
  {
    assert (done + [p])[..|done|] == done;
  }

  /** Walking one more record extends the countable records by it exactly when
      it has a declaration. */
  lemma CountableStep(done: seq<SliceProfile>, p: SliceProfile)
    ensures Countable(done + [p]) == Countable(done) + (if p.containsDeclaration then [p] else [])
  {
    assert (done + [p])[..|done|] == done;
  }

  /** The next module's records, appended to those of the modules before it. */
  lemma FlattenStep(profileMap: seq<ModuleSlices>, i: nat)
    requires i < |profileMap|
    ensures Flatten(profileMap[..i + 1]) == Flatten(profileMap[..i]) + profileMap[i].profiles
  {
    assert profileMap[..i + 1][..i] == profileMap[..i];
  }

  // ---------------------------------------------------------------------------
  // The accumulation pass

  /** The body of the accumulation loop for one countable record: its size,
      identifier count and line span, written under its variable name and added
      to its function's entry and to the module totals. */
  method CountProfile(profile: SliceProfile, variableMetrics: map<string, VariableEntry>,
                      functionMetrics: map<string, FunctionEntry>, moduleSize: nat, sliceIdentifiers: nat,
                      finalSlices: nat)
    returns (variableMetrics': map<string, VariableEntry>, functionMetrics': map<string, FunctionEntry>,
             moduleSize': nat, sliceIdentifiers': nat, finalSlices': nat)
    requires HasLines(profile)
    ensures Totals(variableMetrics', functionMetrics', moduleSize', sliceIdentifiers', finalSlices')
         == CountSlice(Totals(variableMetrics, functionMetrics, moduleSize, sliceIdentifiers, finalSlices), profile)
  {
    var sliceSize := |profile.definitions| + |profile.uses|;
    var identifiers := |profile.dvars| + |profile.aliases| + |profile.cfunctions|;
    var useMin, useMax := MinMaxElement(profile.uses);
    var defMin, defMax := MinMaxElement(profile.definitions);
    var maxLine := Max(useMax, defMax);
    var minLine := Min(useMin, defMin);
    assert maxLine == MaxLine(profile) && minLine == MinLine(profile);
    var sliceDistance := maxLine - minLine;
    assert VariableEntry(sliceSize, identifiers, sliceDistance, 0.0, 0.0) == SliceEntry(profile);
    variableMetrics' := variableMetrics[profile.variableName :=
      VariableEntry(sliceSize, identifiers, sliceDistance, 0.0, 0.0)];
    moduleSize' := moduleSize + sliceSize;
    finalSlices' := finalSlices + 1;
    sliceIdentifiers' := sliceIdentifiers + identifiers;
    var entry := EntryOf(functionMetrics, profile.functionName);
    ghost var before := entry;
    entry := entry.(functionIdentifiers := entry.functionIdentifiers + identifiers);
    entry := entry.(avgSliceDistance := entry.avgSliceDistance + sliceDistance as real);
    entry := entry.(sliceCount := entry.sliceCount + 1);
    entry := entry.(maxLine := Max(maxLine, entry.maxLine));
    entry := entry.(minLine := Min(minLine, entry.minLine));
    entry := entry.(functionSize := entry.functionSize + sliceSize);
    assert entry == AddSlice(before, profile);
    functionMetrics' := functionMetrics[profile.functionName := entry];
  }

  /** The inner loop of the first pass: the records of one module, walked in
      order after the records `before` of the modules already walked. Every
      countable record is printed; with the metric argument it is also counted. */
  method AccumulateModule(profiles: seq<SliceProfile>, argc: nat, ghost before: seq<SliceProfile>,
                          variableMetrics: map<string, VariableEntry>, functionMetrics: map<string, FunctionEntry>,
                          moduleSize: nat, sliceIdentifiers: nat, finalSlices: nat, printed: seq<SliceProfile>)
    returns (variableMetrics': map<string, VariableEntry>, functionMetrics': map<string, FunctionEntry>,
             moduleSize': nat, sliceIdentifiers': nat, finalSlices': nat, printed': seq<SliceProfile>)
    requires printed == Countable(before)
    requires argc < 3 ==> Totals(variableMetrics, functionMetrics, moduleSize, sliceIdentifiers, finalSlices) == NoTotals
    requires argc >= 3 ==> CountableHaveLines(before) && CountableHaveLines(profiles)
    requires argc >= 3 ==>
      Totals(variableMetrics, functionMetrics, moduleSize, sliceIdentifiers, finalSlices) == PassOne(before)
    ensures printed' == Countable(before + profiles)
    ensures argc < 3 ==> Totals(variableMetrics', functionMetrics', moduleSize', sliceIdentifiers', finalSlices') == NoTotals
    ensures argc >= 3 ==> CountableHaveLines(before + profiles)
    ensures argc >= 3 ==>
      Totals(variableMetrics', functionMetrics', moduleSize', sliceIdentifiers', finalSlices') == PassOne(before + profiles)
  {
    variableMetrics', functionMetrics' := variableMetrics, functionMetrics;
    moduleSize', sliceIdentifiers', finalSlices', printed' := moduleSize, sliceIdentifiers, finalSlices, printed;
    ghost var done := before;
    var j := 0;
    while j < |profiles|
      invariant 0 <= j <= |profiles|
      invariant done == before + profiles[..j]
      invariant printed' == Countable(done)
      invariant argc < 3 ==> Totals(variableMetrics', functionMetrics', moduleSize', sliceIdentifiers', finalSlices') == NoTotals
      invariant argc >= 3 ==> CountableHaveLines(done)
      invariant argc >= 3 ==>
        Totals(variableMetrics', functionMetrics', moduleSize', sliceIdentifiers', finalSlices') == PassOne(done)
    {
      var profile := profiles[j];
      assert profiles[..j + 1] == profiles[..j] + [profile];
      if argc >= 3 {
        PassOneStep(done, profile);
      }
      if profile.containsDeclaration {
        if argc >= 3 {
          variableMetrics', functionMetrics', moduleSize', sliceIdentifiers', finalSlices' :=
            CountProfile(profile, variableMetrics', functionMetrics', moduleSize', sliceIdentifiers', finalSlices');
        }
        printed' := printed' + [profile];
      }
      CountableStep(done, profile);
      done := done + [profile];
      j := j + 1;
    }
    assert profiles[..|profiles|] == profiles;
  }

  /** The first nested loop of the driver. Every countable record is printed,
      whatever the mode; with the metric argument present (`argc >= 3`) it also
      updates the tables and totals, without it nothing is touched. */
  method AccumulateMetrics(profileMap: seq<ModuleSlices>, argc: nat)
    returns (variableMetrics: map<string, VariableEntry>, functionMetrics: map<string, FunctionEntry>,
             moduleSize: nat, sliceIdentifiers: nat, finalSlices: nat, printed: seq<SliceProfile>)
    requires argc >= 3 ==> ValidProfileMap(profileMap)
    ensures printed == Countable(Flatten(profileMap))
    ensures argc < 3 ==> Totals(variableMetrics, functionMetrics, moduleSize, sliceIdentifiers, finalSlices) == NoTotals
    ensures argc >= 3 ==>
      Totals(variableMetrics, functionMetrics, moduleSize, sliceIdentifiers, finalSlices) == Accumulated(profileMap)
  {
    variableMetrics, functionMetrics := map[], map[];
    moduleSize, sliceIdentifiers, finalSlices := 0, 0, 0;
    printed := [];
    ghost var done: seq<SliceProfile> := [];
    var i := 0;
    while i < |profileMap|
      invariant 0 <= i <= |profileMap|
      invariant done == Flatten(profileMap[..i])
      invariant printed == Countable(done)
      invariant argc < 3 ==> Totals(variableMetrics, functionMetrics, moduleSize, sliceIdentifiers, finalSlices) == NoTotals
      invariant argc >= 3 ==> CountableHaveLines(done)
      invariant argc >= 3 ==>
        Totals(variableMetrics, functionMetrics, moduleSize, sliceIdentifiers, finalSlices) == PassOne(done)
    {
      var profiles := profileMap[i].profiles;
      FlattenStep(profileMap, i);
      variableMetrics, functionMetrics, moduleSize, sliceIdentifiers, finalSlices, printed :=
        AccumulateModule(profiles, argc, done,
                         variableMetrics, functionMetrics, moduleSize, sliceIdentifiers, finalSlices, printed);
      done := done + profiles;
      i := i + 1;
    }
    assert profileMap[..|profileMap|] == profileMap;
  }
}
