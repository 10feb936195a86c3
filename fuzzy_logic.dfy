/**
 * The fuzzy membership engine: `FuzzyLogic.classify_value` and
 * `FuzzyLogic.get_membership_degrees` of src/fuzzy/fuzzy_logic.py (and the
 * identical copy at the top of full.py).
 *
 * The Gaussian density and Python's `round(., 2)` are not computed here: they
 * are supplied as the two fields of `FloatOps`, and all that is assumed of the
 * density is that it is never negative.
 */
module FuzzyLogic {
  import opened Wrappers

  /** The `shape` field of a fuzzy-set entry. */
  datatype Shape = LeftShoulder | Triangle | RightShoulder

  /** One entry `{"label", "a", "b", "c", "shape"}` of a partition; `name` is its `label` (a reserved word in Dafny). */
  datatype FuzzySet = FuzzySet(name: string, a: real, b: real, c: real, shape: Shape)

  /** The list of entries stored under one axis key of the configuration table. */
  type Partition = seq<FuzzySet>

  /** A membership result: label to degree. */
  type Degrees = map<string, real>

  /** A probability density `(x, mu, sigma) -> pdf`; only its sign is known. */
  type Density = f: (real, real, real) -> real | forall x, mu, sigma :: f(x, mu, sigma) >= 0.0
    witness (x: real, mu: real, sigma: real) => 0.0

  /** The floating-point library the engine calls: `norm.pdf` and `round(., 2)`. */
  datatype FloatOps = FloatOps(pdf: Density, round2: real -> real)

  // ---------------------------------------------------------------------------
  // classify_value
  // ---------------------------------------------------------------------------

  /** The mean of the density placed on a range `(lo, hi)`: its midpoint. */
  function Centre(lo: real, hi: real): (mu: real)
    ensures lo <= hi ==> lo <= mu <= hi
    ensures mu - lo == hi - mu
  {
    (lo + hi) / 2.0
  }

  /** The standard deviation of the density placed on `(lo, hi)`: a quarter of its width. */
  function Spread(lo: real, hi: real): (sigma: real)
    ensures lo < hi <==> sigma > 0.0
    ensures 4.0 * sigma == hi - lo
  {
    (hi - lo) / 4.0
  }

  /** The density of `x` under the Gaussian centred on the range `g`. */
  function DensityOn(x: real, g: (real, real), pdf: Density): (d: real)
    ensures d >= 0.0
  {
    pdf(x, Centre(g.0, g.1), Spread(g.0, g.1))
  }

  /**
   * `classify_value`: the two densities normalised by their sum, or `(0, 0)`
   * when the sum is not positive.  The result is the two-component mixture
   * weight of `x`: each degree times the total gives back its density.
   */
  function ClassifyValue(x: real, g1: (real, real), g2: (real, real), pdf: Density): (r: (real, real))
    ensures var d1, d2 := DensityOn(x, g1, pdf), DensityOn(x, g2, pdf);
      if d1 + d2 > 0.0 then
        && 0.0 <= r.0 <= 1.0 && 0.0 <= r.1 <= 1.0
        && r.0 + r.1 == 1.0
        && r.0 * (d1 + d2) == d1 && r.1 * (d1 + d2) == d2
      else
        d1 == 0.0 && d2 == 0.0 && r == (0.0, 0.0)
  {
    var pdf1 := DensityOn(x, g1, pdf);
    var pdf2 := DensityOn(x, g2, pdf);
    var total := pdf1 + pdf2;
    var p1 := if total > 0.0 then pdf1 / total else 0.0;
    var p2 := if total > 0.0 then pdf2 / total else 0.0;
    assert total > 0.0 ==> p1 * total == pdf1 && p2 * total == pdf2;
    assert total > 0.0 ==> p1 + p2 == 1.0 by {
      if total > 0.0 { SharesOfWhole(pdf1, pdf2, p1, p2); }
    }
    (p1, p2)
  }

  /** Two parts divided by their positive sum add up to one. */
  lemma SharesOfWhole(d1: real, d2: real, p1: real, p2: real)
    requires d1 + d2 > 0.0 && p1 == d1 / (d1 + d2) && p2 == d2 / (d1 + d2)
    ensures p1 + p2 == 1.0
  {
    assert p1 + p2 == (d1 + d2) / (d1 + d2);
  }

  /** The range whose density is larger at `x` receives the larger degree. */
  lemma ClassifyValueFavoursDenser(x: real, g1: (real, real), g2: (real, real), pdf: Density)
    requires DensityOn(x, g1, pdf) + DensityOn(x, g2, pdf) > 0.0
    ensures var r := ClassifyValue(x, g1, g2, pdf);
      r.0 >= r.1 <==> DensityOn(x, g1, pdf) >= DensityOn(x, g2, pdf)
  {
    var r := ClassifyValue(x, g1, g2, pdf);
    var d1, d2 := DensityOn(x, g1, pdf), DensityOn(x, g2, pdf);
    var t := d1 + d2;
    assert r.0 * t == d1 && r.1 * t == d2;
    ScaleByPositive(r.0, r.1, t);
    assert r.0 * t >= r.1 * t <==> d1 >= d2;
  }

  /** Multiplying by a positive factor preserves the order of two reals. */
  lemma ScaleByPositive(p: real, q: real, t: real)
    requires t > 0.0
    ensures p >= q <==> p * t >= q * t
  {
    assert p * t - q * t == (p - q) * t;
    if p >= q {
      assert (p - q) * t >= 0.0;
    } else {
      assert (q - p) * t > 0.0;
    }
  }

  /** Swapping the two ranges swaps the two degrees. */
  lemma ClassifyValueSymmetric(x: real, g1: (real, real), g2: (real, real), pdf: Density)
    ensures var r, s := ClassifyValue(x, g1, g2, pdf), ClassifyValue(x, g2, g1, pdf);
      r.0 == s.1 && r.1 == s.0
  {
    var r, s := ClassifyValue(x, g1, g2, pdf), ClassifyValue(x, g2, g1, pdf);
    var d1, d2 := DensityOn(x, g1, pdf), DensityOn(x, g2, pdf);
    if d1 + d2 > 0.0 {
      assert r.0 * (d1 + d2) == s.1 * (d1 + d2);
      assert r.1 * (d1 + d2) == s.0 * (d1 + d2);
    }
  }

  // ---------------------------------------------------------------------------
  // Shape lookup: next(fs for fs in fuzzy_sets if fs["shape"] == shape)
  // ---------------------------------------------------------------------------

  /** The first entry of `p` with the given shape; `None` is the StopIteration. */
  function FindShape(p: Partition, shape: Shape): (r: Option<FuzzySet>)
    ensures r.None? <==> forall i :: 0 <= i < |p| ==> p[i].shape != shape
    ensures r.Some? ==> r.value.shape == shape
    ensures r.Some? ==> exists i :: 0 <= i < |p| && p[i] == r.value && forall j :: 0 <= j < i ==> p[j].shape != shape
  {
    if p == [] then None
    else if p[0].shape == shape then Some(p[0])
    else
      var r := FindShape(p[1..], shape);
      assert r.Some? ==> exists i :: 0 <= i < |p| && p[i] == r.value && forall j :: 0 <= j < i ==> p[j].shape != shape by {
        if r.Some? {
          var i :| 0 <= i < |p[1..]| && p[1..][i] == r.value && forall j :: 0 <= j < i ==> p[1..][j].shape != shape;
          assert p[i + 1] == r.value;
          assert forall j :: 0 <= j < i + 1 ==> p[j].shape != shape by {
            forall j | 0 <= j < i + 1 ensures p[j].shape != shape {
              if j > 0 { assert p[j] == p[1..][j - 1]; }
            }
          }
        }
      }
      assert r.None? ==> forall i :: 0 <= i < |p| ==> p[i].shape != shape by {
        if r.None? {
          forall i | 0 <= i < |p| ensures p[i].shape != shape {
            if i > 0 { assert p[i] == p[1..][i - 1]; }
          }
        }
      }
      r
  }

  /** Every shape the engine looks up is present in `p`. */
  predicate HasAllShapes(p: Partition)
  {
    FindShape(p, LeftShoulder).Some? && FindShape(p, Triangle).Some? && FindShape(p, RightShoulder).Some?
  }

  // ---------------------------------------------------------------------------
  // The comparison chain of get_membership_degrees
  // ---------------------------------------------------------------------------

  /** `v < t`; false on NaN, as every comparison with NaN is. */
  predicate Below(v: Option<real>, t: real) { v.Some? && v.value < t }

  /** `t <= v`; false on NaN. */
  predicate AtLeast(v: Option<real>, t: real) { v.Some? && t <= v.value }

  /** `v <= t`; false on NaN. */
  predicate AtMost(v: Option<real>, t: real) { v.Some? && v.value <= t }

  /** `v > t`; false on NaN. */
  predicate Above(v: Option<real>, t: real) { v.Some? && v.value > t }

  /** Which arm of the `if/elif` chain fires; `NoBranch` is falling off its end. */
  datatype Branch = LeftOnly | LeftMedium | MediumOnly | MediumRight | RightOnly | NoBranch

  /**
   * The five-way chain, with the source's inclusive and exclusive bounds.
   * For a real value some arm always fires; only NaN falls through.
   */
  function Select(v: Option<real>, left: FuzzySet, medium: FuzzySet, right: FuzzySet): (b: Branch)
    ensures b == NoBranch <==> v.None?
  {
    if Below(v, medium.a) then LeftOnly
    else if AtLeast(v, medium.a) && Below(v, left.c) then LeftMedium
    else if AtLeast(v, left.c) && Below(v, right.a) then MediumOnly
    else if AtLeast(v, right.a) && AtMost(v, medium.c) then MediumRight
    else if Above(v, medium.c) then RightOnly
    else NoBranch
  }

  /** The dictionary the chain builds once the three entries are known. */
  function ChainDegrees(v: Option<real>, left: FuzzySet, medium: FuzzySet, right: FuzzySet, ops: FloatOps): (d: Degrees)
    ensures d.Keys <= {left.name, medium.name, right.name}
    ensures d == map[] <==> v.None?
  {
    match Select(v, left, medium, right)
    case LeftOnly => var d := map[left.name := 1.0]; assert left.name in d; d
    case LeftMedium =>
      var (dl, dm) := ClassifyValue(v.value, (left.b, left.c), (medium.a, medium.b), ops.pdf);
      var d := map[left.name := ops.round2(dl), medium.name := ops.round2(dm)];
      assert medium.name in d;
      d
    case MediumOnly => var d := map[medium.name := 1.0]; assert medium.name in d; d
    case MediumRight =>
      var (dm, dr) := ClassifyValue(v.value, (medium.b, medium.c), (right.a, right.b), ops.pdf);
      var d := map[medium.name := ops.round2(dm), right.name := ops.round2(dr)];
      assert right.name in d;
      d
    case RightOnly => var d := map[right.name := 1.0]; assert right.name in d; d
    case NoBranch => map[]
  }

  /** The labels of all entries of a partition. */
  function Labels(p: Partition): set<string>
  {
    set i | 0 <= i < |p| :: p[i].name
  }

  /**
   * `get_membership_degrees(value, fuzzy_sets)`: the three shape lookups
   * (in the order left, triangle, right, each failing when absent) followed
   * by the comparison chain.
   */
  function MembershipDegrees(v: Option<real>, p: Partition, ops: FloatOps): (r: Result<Degrees, Shape>)
    ensures r.Success? <==> HasAllShapes(p)
    ensures r.Failure? ==> FindShape(p, r.error).None?
    ensures r.Failure? && r.error != LeftShoulder ==> FindShape(p, LeftShoulder).Some?
    ensures r.Failure? && r.error == RightShoulder ==> FindShape(p, Triangle).Some?
    ensures r.Success? ==> r.value.Keys <= Labels(p)
    ensures r.Success? ==> (r.value == map[] <==> v.None?)
  {
    match FindShape(p, LeftShoulder)
    case None => Failure(LeftShoulder)
    case Some(left) =>
      match FindShape(p, Triangle)
      case None => Failure(Triangle)
      case Some(medium) =>
        match FindShape(p, RightShoulder)
        case None => Failure(RightShoulder)
        case Some(right) => Success(ChainDegrees(v, left, medium, right, ops))
  }

  // ---------------------------------------------------------------------------
  // What the chain computes, arm by arm
  // ---------------------------------------------------------------------------

  /** The ordering of the partition's break points that makes the five guards disjoint. */
  predicate Ordered(left: FuzzySet, medium: FuzzySet, right: FuzzySet)
  {
    medium.a <= left.c <= right.a <= medium.c
  }

  /** The guard of each arm read on its own, without the arms before it. */
  predicate Guard(b: Branch, x: real, left: FuzzySet, medium: FuzzySet, right: FuzzySet)
  {
    match b
    case LeftOnly => x < medium.a
    case LeftMedium => medium.a <= x < left.c
    case MediumOnly => left.c <= x < right.a
    case MediumRight => right.a <= x <= medium.c
    case RightOnly => x > medium.c
    case NoBranch => false
  }

  /**
   * On an ordered partition the five guards partition the real line: the arm
   * the chain selects is exactly the one whose own guard holds.
   */
  lemma GuardsPartitionTheLine(x: real, left: FuzzySet, medium: FuzzySet, right: FuzzySet, b: Branch)
    requires Ordered(left, medium, right)
    ensures Guard(b, x, left, medium, right) <==> b == Select(Some(x), left, medium, right)
  {
  }

  /** Below the triangle's left edge the left shoulder saturates, however far below its own support. */
  lemma SaturatesLeft(x: real, left: FuzzySet, medium: FuzzySet, right: FuzzySet, ops: FloatOps)
    requires x < medium.a
    ensures ChainDegrees(Some(x), left, medium, right, ops) == map[left.name := 1.0]
  {
  }

  /** In `[M.a, L.c)` the result holds the rounded mixture weights of left and medium. */
  lemma LeftTransition(x: real, left: FuzzySet, medium: FuzzySet, right: FuzzySet, ops: FloatOps)
    requires medium.a <= x < left.c
    requires left.name != medium.name
    ensures var d := ChainDegrees(Some(x), left, medium, right, ops);
      var w := ClassifyValue(x, (left.b, left.c), (medium.a, medium.b), ops.pdf);
      && d.Keys == {left.name, medium.name}
      && d[left.name] == ops.round2(w.0) && d[medium.name] == ops.round2(w.1)
  {
  }

  /** In the triangle's core `[L.c, R.a)` the medium label alone holds, fully. */
  lemma MediumCore(x: real, left: FuzzySet, medium: FuzzySet, right: FuzzySet, ops: FloatOps)
    requires medium.a <= left.c
    requires left.c <= x < right.a
    ensures ChainDegrees(Some(x), left, medium, right, ops) == map[medium.name := 1.0]
  {
  }

  /** In `[R.a, M.c]` the result holds the rounded mixture weights of medium and right. */
  lemma RightTransition(x: real, left: FuzzySet, medium: FuzzySet, right: FuzzySet, ops: FloatOps)
    requires medium.a <= left.c <= right.a
    requires right.a <= x <= medium.c
    requires medium.name != right.name
    ensures var d := ChainDegrees(Some(x), left, medium, right, ops);
      var w := ClassifyValue(x, (medium.b, medium.c), (right.a, right.b), ops.pdf);
      && d.Keys == {medium.name, right.name}
      && d[medium.name] == ops.round2(w.0) && d[right.name] == ops.round2(w.1)
  {
  }

  /** Above the triangle's right edge the right shoulder saturates. */
  lemma SaturatesRight(x: real, left: FuzzySet, medium: FuzzySet, right: FuzzySet, ops: FloatOps)
    requires Ordered(left, medium, right)
    requires x > medium.c
    ensures ChainDegrees(Some(x), left, medium, right, ops) == map[right.name := 1.0]
  {
  }

  /**
   * Every real value yields a one-key result with degree 1.0 or a two-key
   * result (the two weights are `ClassifyValue`'s shares, whose own contract
   * says they sum to 1 or are both zero).
   */
  lemma OneOrTwoKeys(x: real, left: FuzzySet, medium: FuzzySet, right: FuzzySet, ops: FloatOps)
    requires left.name != medium.name && medium.name != right.name
    ensures var d := ChainDegrees(Some(x), left, medium, right, ops);
      (|d| == 1 && 1.0 in d.Values) || |d| == 2
  {
    var d := ChainDegrees(Some(x), left, medium, right, ops);
    match Select(Some(x), left, medium, right)
    case LeftOnly => assert d == map[left.name := 1.0];
    case LeftMedium => assert d.Keys == {left.name, medium.name};
    case MediumOnly => assert d == map[medium.name := 1.0];
    case MediumRight => assert d.Keys == {medium.name, right.name};
    case RightOnly => assert d == map[right.name := 1.0];
  }

  // ---------------------------------------------------------------------------
  // Well-formed partitions: what the engine silently relies on
  // ---------------------------------------------------------------------------

  /** The number of entries of `p` with the given shape. */
  function CountShape(p: Partition, shape: Shape): (n: nat)
    ensures n <= |p|
    ensures n == 0 <==> FindShape(p, shape).None?
  {
    if p == [] then 0
    else (if p[0].shape == shape then 1 else 0) + CountShape(p[1..], shape)
  }

  /**
   * A partition as the configuration table means it: one entry of each shape,
   * `a < b < c` in every entry, pairwise distinct labels, and non-empty
   * left transition zone, triangle core and right transition zone, in order.
   */
  predicate WellFormed(p: Partition)
  {
    && CountShape(p, LeftShoulder) == 1
    && CountShape(p, Triangle) == 1
    && CountShape(p, RightShoulder) == 1
    && (forall i :: 0 <= i < |p| ==> p[i].a < p[i].b < p[i].c)
    && (forall i, j :: 0 <= i < j < |p| ==> p[i].name != p[j].name)
    && var left, medium, right := FindShape(p, LeftShoulder).value, FindShape(p, Triangle).value, FindShape(p, RightShoulder).value;
       medium.a < left.c < right.a < medium.c
  }

  /** A left shoulder, a triangle and a right shoulder in this order, with ordered parameters and labels that differ, form a well-formed partition. */
  lemma WellFormedOfEntries(left: FuzzySet, medium: FuzzySet, right: FuzzySet)
    requires left.shape == LeftShoulder && medium.shape == Triangle && right.shape == RightShoulder
    requires left.a < left.b < left.c && medium.a < medium.b < medium.c && right.a < right.b < right.c
    requires left.name != medium.name && medium.name != right.name && left.name != right.name
    requires medium.a < left.c < right.a < medium.c
    ensures WellFormed([left, medium, right])
  {
    var p := [left, medium, right];
    assert p[1..] == [medium, right] && p[1..][1..] == [right] && p[1..][1..][1..] == [];
  }

  /** Two entries with different shapes taken from a partition with distinct labels have distinct labels. */
  lemma FoundNamesDistinct(p: Partition, s1: Shape, s2: Shape)
    requires FindShape(p, s1).Some? && FindShape(p, s2).Some? && s1 != s2
    requires forall i, j :: 0 <= i < j < |p| ==> p[i].name != p[j].name
    ensures FindShape(p, s1).value.name != FindShape(p, s2).value.name
  {
    var e1, e2 := FindShape(p, s1).value, FindShape(p, s2).value;
    var i :| 0 <= i < |p| && p[i] == e1;
    var j :| 0 <= j < |p| && p[j] == e2;
    assert i != j;
  }

  /**
   * On a well-formed partition the shape lookups never fail, the chain's
   * guards are ordered, every density the engine builds has a positive
   * spread, and a real value gets one key with degree 1.0 or two keys.
   */
  lemma WellFormedMembership(v: Option<real>, p: Partition, ops: FloatOps)
    requires WellFormed(p)
    ensures HasAllShapes(p)
    ensures var left, medium, right := FindShape(p, LeftShoulder).value, FindShape(p, Triangle).value, FindShape(p, RightShoulder).value;
      && Ordered(left, medium, right)
      && Spread(left.b, left.c) > 0.0 && Spread(medium.a, medium.b) > 0.0
      && Spread(medium.b, medium.c) > 0.0 && Spread(right.a, right.b) > 0.0
    ensures MembershipDegrees(v, p, ops).Success?
    ensures var d := MembershipDegrees(v, p, ops).value;
      v.Some? ==> (|d| == 1 && 1.0 in d.Values) || |d| == 2
  {
    var left, medium, right := FindShape(p, LeftShoulder).value, FindShape(p, Triangle).value, FindShape(p, RightShoulder).value;
    var i :| 0 <= i < |p| && p[i] == left;
    var j :| 0 <= j < |p| && p[j] == medium;
    var k :| 0 <= k < |p| && p[k] == right;
    assert left.a < left.b < left.c && medium.a < medium.b < medium.c && right.a < right.b < right.c;
    FoundNamesDistinct(p, LeftShoulder, Triangle);
    FoundNamesDistinct(p, Triangle, RightShoulder);
    if v.Some? {
      OneOrTwoKeys(v.value, left, medium, right, ops);
    }
  }
}
