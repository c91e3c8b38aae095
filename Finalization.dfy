/**
  The finalization pass: once the module size is known, the per-variable and
  per-function entries are rewritten in place into ratios and averages, and the
  module averages are formed.

  The source divides in `double`; here the ratios are exact `real`s. The two
  entry loops are shown never to divide by zero when fed the accumulation
  pass's tables; the module averages, which the source computes as 0/0 when no
  record was counted, are `None` in that case.
 */
module Finalization {
  import opened Accumulation

  /** A value that may be unavailable. */
  datatype Option<T> = None | Some(value: T)

  /** Coverage and spatial ratio of one variable against the module size; the
      three accumulated values stay as they are. */
  function FinalizeVariable(e: VariableEntry, moduleSize: nat): (r: VariableEntry)
    requires moduleSize > 0
    ensures r.sliceSize == e.sliceSize && r.sliceIdentifiers == e.sliceIdentifiers
    ensures r.sliceDistance == e.sliceDistance
    ensures 0.0 <= r.sliceCoverage && 0.0 <= r.sliceSpatial
    ensures 0 < e.sliceSize <= moduleSize ==> 0.0 < r.sliceCoverage <= 1.0
  {
    e.(sliceCoverage := e.sliceSize as real / moduleSize as real,
       sliceSpatial := e.sliceDistance as real / moduleSize as real)
  }

  /** Coverage against the module size, the three averages over the slice count
      (the running distance sum divided in place), the line span and its spatial
      ratio. The accumulated sums, count and extremes stay as they are. */
  function FinalizeFunction(e: FunctionEntry, moduleSize: nat): (r: FunctionEntry)
    requires moduleSize > 0 && e.sliceCount > 0
    ensures r.functionIdentifiers == e.functionIdentifiers && r.sliceCount == e.sliceCount
    ensures r.maxLine == e.maxLine && r.minLine == e.minLine && r.functionSize == e.functionSize
    ensures 0.0 <= r.functionCoverage
    ensures 0 < e.functionSize <= moduleSize ==> 0.0 < r.functionCoverage <= 1.0
    ensures e.minLine <= e.maxLine ==> 0 <= r.functionDistance && 0.0 <= r.functionSpatial
  {
    var distance := e.maxLine - e.minLine;
    e.(functionCoverage := e.functionSize as real / moduleSize as real,
       avgSliceDistance := e.avgSliceDistance / e.sliceCount as real,
       avgSliceSize := e.functionSize as real / e.sliceCount as real,
       avgSliceIdentifiers := e.functionIdentifiers as real / e.sliceCount as real,
       functionDistance := distance,
       functionSpatial := distance as real / moduleSize as real)
  }

  /** A module average: unavailable when nothing was counted (the source's 0/0). */
  function Average(total: nat, count: nat): (r: Option<real>)
    ensures r.None? <==> count == 0
    ensures r.Some? ==> r.value * count as real == total as real
  {
    if count == 0 then None else Some(total as real / count as real)
  }

  /** An average over `count` items of at least `lower` each is at least `lower`. */
  lemma AverageAtLeast(total: nat, count: nat, lower: nat)
    requires count > 0 && total >= lower * count
    ensures Average(total, count).Some? && Average(total, count).value >= lower as real
  {
    var a := Average(total, count).value;
    var c := count as real;
    assert a * c == total as real;
    assert (lower * count) as real == lower as real * c;
    assert (a - lower as real) * c >= 0.0;
  }

  /** The variable finalization loop, rewriting every entry in place. The module
      size is only a divisor when there is an entry to divide. */
  method FinalizeVariables(variableMetrics: map<string, VariableEntry>, moduleSize: nat)
    returns (finalized: map<string, VariableEntry>)
    requires moduleSize == 0 ==> variableMetrics == map[]
    ensures finalized.Keys == variableMetrics.Keys
    ensures forall name :: name in variableMetrics ==>
      finalized[name] == FinalizeVariable(variableMetrics[name], moduleSize)
  {
    finalized := variableMetrics;
    var todo := variableMetrics.Keys;
    while todo != {}
      invariant todo <= variableMetrics.Keys
      invariant finalized.Keys == variableMetrics.Keys
      invariant forall name :: name in todo ==> finalized[name] == variableMetrics[name]
      invariant forall name :: name in variableMetrics && name !in todo ==>
        finalized[name] == FinalizeVariable(variableMetrics[name], moduleSize)
      decreases todo
    {
      var name :| name in todo;
      finalized := finalized[name := FinalizeVariable(finalized[name], moduleSize)];
      todo := todo - {name};
    }
  }

  /** The function finalization loop, rewriting every entry in place. Every
      entry must count a slice; the module size is only a divisor when there is
      an entry. */
  method FinalizeFunctions(functionMetrics: map<string, FunctionEntry>, moduleSize: nat)
    returns (finalized: map<string, FunctionEntry>)
    requires moduleSize == 0 ==> functionMetrics == map[]
    requires forall f :: f in functionMetrics ==> functionMetrics[f].sliceCount > 0
    ensures finalized.Keys == functionMetrics.Keys
    ensures forall f :: f in functionMetrics ==>
      finalized[f] == FinalizeFunction(functionMetrics[f], moduleSize)
  {
    finalized := functionMetrics;
    var todo := functionMetrics.Keys;
    while todo != {}
      invariant todo <= functionMetrics.Keys
      invariant finalized.Keys == functionMetrics.Keys
      invariant forall f :: f in todo ==> finalized[f] == functionMetrics[f]
      invariant forall f :: f in functionMetrics && f !in todo ==>
        finalized[f] == FinalizeFunction(functionMetrics[f], moduleSize)
      decreases todo
    {
      var f :| f in todo;
      finalized := finalized[f := FinalizeFunction(finalized[f], moduleSize)];
      todo := todo - {f};
    }
  }

  /** Finalizing a variable entry twice gives what finalizing it once gives. */
  lemma VariableFinalizationIdempotent(e: VariableEntry, moduleSize: nat)
    requires moduleSize > 0
    ensures FinalizeVariable(FinalizeVariable(e, moduleSize), moduleSize) == FinalizeVariable(e, moduleSize)
  {
  }

  /** Finalizing a function entry is not idempotent: a second pass divides the
      distance average by the slice count again, so it changes the entry exactly
      when there are several slices and a non-zero distance. */
  lemma FunctionFinalizationDividesOnce(e: FunctionEntry, moduleSize: nat)
    requires moduleSize > 0 && e.sliceCount > 0
    ensures var once := FinalizeFunction(e, moduleSize);
      FinalizeFunction(once, moduleSize) == once <==> (e.sliceCount == 1 || e.avgSliceDistance == 0.0)
  {
    var once := FinalizeFunction(e, moduleSize);
    var twice := FinalizeFunction(once, moduleSize);
    var c := e.sliceCount as real;
    assert c >= 1.0;
    var a := once.avgSliceDistance;
    assert a * c == e.avgSliceDistance;
    assert twice == once.(avgSliceDistance := a / c);
    if twice == once {
      assert a / c == a;
      calc {
        a * c;
        (a / c) * c;
        a;
      }
      assert a * (c - 1.0) == 0.0;
      if c != 1.0 {
        assert a == 0.0;
      }
    }
  }
}
