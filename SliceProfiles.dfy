/**
  Slice records as the slicer hands them to the metrics aggregator, and the
  per-record quantities the aggregator derives from one record: its size,
  its identifier count and the distance between its first and last line.
 */
module SliceProfiles {

  /** One variable's slice within one function of one module. Line numbers are
      unsigned in the source, hence `nat`. */
  datatype SliceProfile = SliceProfile(
    variableName: string,
    functionName: string,
    containsDeclaration: bool,
    definitions: set<nat>,
    uses: set<nat>,
    dvars: set<string>,
    aliases: set<string>,
    cfunctions: set<string>)

  /** One entry of the slicer's output map: a module key and its records, in order. */
  datatype ModuleSlices = ModuleSlices(name: string, profiles: seq<SliceProfile>)

  function Max(a: nat, b: nat): nat { if a < b then b else a }

  function Min(a: nat, b: nat): nat { if a < b then a else b }

  /** A record whose line extremes exist: both line sets are non-empty. */
  predicate HasLines(p: SliceProfile) {
    p.definitions != {} && p.uses != {}
  }

  /** Every record that takes part in the metrics has lines to measure. */
  predicate CountableHaveLines(ps: seq<SliceProfile>) {
    forall i :: 0 <= i < |ps| && ps[i].containsDeclaration ==> HasLines(ps[i])
  }

  /** What the accumulation pass demands of the slicer's output: in every module,
      every record with a declaration has uses and definitions. */
  predicate ValidProfileMap(profileMap: seq<ModuleSlices>) {
    forall i :: 0 <= i < |profileMap| ==> CountableHaveLines(profileMap[i].profiles)
  }

  /** All line numbers a slice mentions. */
  function Lines(p: SliceProfile): set<nat> {
    p.uses + p.definitions
  }

  /** Number of definition and use lines of a slice; at least two when it has lines. */
  function SliceSize(p: SliceProfile): (n: nat)
    ensures HasLines(p) ==> n >= 2
  {
    |p.definitions| + |p.uses|
  }

  /** Number of identifiers a slice depends on: data dependences, aliases and
      called functions. It counts each kind in full, and is zero exactly when
      the slice depends on no identifier. */
  function SliceIdentifiers(p: SliceProfile): (n: nat)
    ensures |p.dvars| <= n && |p.aliases| <= n && |p.cfunctions| <= n
    ensures n == 0 <==> p.dvars == {} && p.aliases == {} && p.cfunctions == {}
  {
    |p.dvars| + |p.aliases| + |p.cfunctions|
  }

  /** The largest element of a non-empty set. */
  ghost function SetMax(s: set<nat>): (m: nat)
    requires s != {}
    ensures m in s
    ensures forall x :: x in s ==> x <= m
  {
    var x :| x in s;
    if s == {x} then x
    else
      var m' := SetMax(s - {x});
      assert forall y :: y in s ==> y == x || y in s - {x};
      if m' < x then x else m'
  }

  /** The smallest element of a non-empty set. */
  ghost function SetMin(s: set<nat>): (m: nat)
    requires s != {}
    ensures m in s
    ensures forall x :: x in s ==> m <= x
  {
    var x :| x in s;
    if s == {x} then x
    else
      var m' := SetMin(s - {x});
      assert forall y :: y in s ==> y == x || y in s - {x};
      if x < m' then x else m'
  }

  /** The scan std::minmax_element performs over a line set. The set must be
      non-empty: on an empty range the source dereferences an end iterator. */
  method MinMaxElement(s: set<nat>) returns (lo: nat, hi: nat)
    requires s != {}
    ensures lo in s && hi in s
    ensures forall x :: x in s ==> lo <= x <= hi
    ensures lo == SetMin(s) && hi == SetMax(s)
  {
    var rest := s;
    var x :| x in rest;
    lo, hi := x, x;
    rest := rest - {x};
    while rest != {}
      invariant rest <= s
      invariant lo in s && hi in s
      invariant forall y :: y in s && y !in rest ==> lo <= y <= hi
      decreases rest
    {
      var y :| y in rest;
      if y < lo {
        lo := y;
      }
      if hi < y {
        hi := y;
      }
      rest := rest - {y};
    }
  }

  /** The last line of a slice: the larger of the last use and the last definition. */
  ghost function MaxLine(p: SliceProfile): (m: nat)
    requires HasLines(p)
    ensures m == SetMax(Lines(p))
  {
    Max(SetMax(p.uses), SetMax(p.definitions))
  }

  /** The first line of a slice: the smaller of the first use and the first definition. */
  ghost function MinLine(p: SliceProfile): (m: nat)
    requires HasLines(p)
    ensures m == SetMin(Lines(p))
  {
    Min(SetMin(p.uses), SetMin(p.definitions))
  }

  /** How far a slice spreads over the file: the span of all its lines, never negative. */
  ghost function SliceDistance(p: SliceProfile): (d: nat)
    requires HasLines(p)
    ensures forall x, y :: x in Lines(p) && y in Lines(p) ==> y - x <= d
    ensures d == SetMax(Lines(p)) - SetMin(Lines(p))
  {
    MaxLine(p) - MinLine(p)
  }
}
