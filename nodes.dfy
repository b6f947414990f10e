/**
 * `_interpolateNodes` (pysir/sir.py): expands the node values of one physical quantity into a value
 * at every depth of the `logTau` axis.
 */
module Nodes {
  import opened Wrappers
  import opened Numerics
  import opened Arrays

  /**
   * `np.linspace(0, n - 1, k, dtype=int)` for `k >= 2`: the depth index at which each of `k` nodes sits,
   * spread evenly from the first depth to the last and rounded down; every index lies on the axis.
   */
  function NodePositions(n: nat, k: nat): (pos: seq<nat>)
    requires n >= 1 && k >= 2
    ensures |pos| == k
    ensures forall i :: 0 <= i < k ==> pos[i] <= n - 1
  {
    PositionsWithinAxis(n, k);
    seq(k, i requires 0 <= i < k => Position(n, k, i))
  }

  /** The depth index of node `i`: `i * (n - 1) / (k - 1)`, rounded down. */
  function Position(n: nat, k: nat, i: nat): nat
    requires n >= 1 && k >= 2
  {
    Scaled(i, n - 1) / (k - 1)
  }

  lemma PositionsWithinAxis(n: nat, k: nat)
    requires n >= 1 && k >= 2
    ensures forall i :: 0 <= i < k ==> Position(n, k, i) <= n - 1
  {
    forall i | 0 <= i < k ensures Position(n, k, i) <= n - 1 {
      MulMonotone(i, k - 1, n - 1);
      DivMonotone(i * (n - 1), (k - 1) * (n - 1), k - 1);
      assert (k - 1) * (n - 1) == (n - 1) * (k - 1);
      MulDiv(n - 1, k - 1);
    }
  }

  function Scaled(i: nat, m: nat): (p: nat)
    ensures p == i * m
  {
    MulMonotone(0, i, m);
    i * m
  }

  lemma MulMonotone(i: nat, j: nat, m: nat)
    requires i <= j
    ensures i * m <= j * m
  {
    assert j * m == i * m + (j - i) * m;
  }

  lemma DivUnique(x: int, d: int, q: int, r: int)
    requires d > 0 && 0 <= r < d && x == q * d + r
    ensures x / d == q
  {
    var q', r' := x / d, x % d;
    assert x == q' * d + r';
    if q > q' {
      assert (q - q') * d == r' - r;
      MulMonotone(1, q - q', d);
      assert false;
    } else if q < q' {
      assert (q' - q) * d == r - r';
      MulMonotone(1, q' - q, d);
      assert false;
    }
  }

  lemma DivMonotone(a: nat, b: nat, d: nat)
    requires a <= b && d > 0
    ensures a / d <= b / d
  {
    var qa, qb := a / d, b / d;
    assert a == qa * d + a % d;
    assert b == qb * d + b % d;
    if qa > qb {
      MulMonotone(qb + 1, qa, d);
      assert false;
    }
  }

  lemma DivStep(a: nat, d: nat)
    requires d > 0
    ensures (a + d) / d == a / d + 1
  {
    assert a == (a / d) * d + a % d;
    assert a + d == (a / d + 1) * d + a % d;
    DivUnique(a + d, d, a / d + 1, a % d);
  }

  lemma MulDiv(a: nat, d: nat)
    requires d > 0
    ensures (a * d) / d == a
  {
    DivUnique(a * d, d, a, 0);
  }
  /** The first node sits at the first depth and the last node at the last depth. */
  lemma NodePositionsEnds(n: nat, k: nat)
    requires n >= 1 && k >= 2
    ensures NodePositions(n, k)[0] == 0 && NodePositions(n, k)[k - 1] == n - 1
  {
    assert (k - 1) * (n - 1) == (n - 1) * (k - 1);
    MulDiv(n - 1, k - 1);
  }

  /** The node positions never decrease. */
  lemma NodePositionsNondecreasing(n: nat, k: nat)
    requires n >= 1 && k >= 2
    ensures forall i, j :: 0 <= i <= j < k ==> NodePositions(n, k)[i] <= NodePositions(n, k)[j]
  {
    var pos := NodePositions(n, k);
    forall i, j | 0 <= i <= j < k ensures pos[i] <= pos[j] {
      MulMonotone(i, j, n - 1);
      DivMonotone(i * (n - 1), j * (n - 1), k - 1);
    }
  }

  /** With no more nodes than depths, no two nodes share a depth index: the positions strictly increase. */
  lemma NodePositionsIncreasing(n: nat, k: nat)
    requires 2 <= k <= n
    ensures forall i, j :: 0 <= i < j < k ==> NodePositions(n, k)[i] < NodePositions(n, k)[j]
  {
    var pos := NodePositions(n, k);
    forall i, j | 0 <= i < j < k ensures pos[i] < pos[j] {
      MulMonotone(i + 1, j, n - 1);
      MulMonotone(k - 1, n - 1, 1);
      assert (i + 1) * (n - 1) == i * (n - 1) + (n - 1);
      DivMonotone(i * (n - 1) + (k - 1), j * (n - 1), k - 1);
      DivStep(i * (n - 1), k - 1);
    }
  }

  /** A node given at an explicit depth: (depth, value). */
  type DepthNode = (real, real)

  predicate SortedByDepth(s: seq<DepthNode>) {
    forall i, j :: 0 <= i < j < |s| ==> s[i].0 <= s[j].0
  }

  function InsertByDepth(p: DepthNode, s: seq<DepthNode>): (r: seq<DepthNode>)
    requires SortedByDepth(s)
    ensures SortedByDepth(r) && multiset(r) == multiset(s) + multiset{p}
    ensures |r| == |s| + 1
    ensures r[0] == if s == [] || p.0 <= s[0].0 then p else s[0]
  {
    if s == [] || p.0 <= s[0].0 then [p] + s
    else
      var rest := InsertByDepth(p, s[1..]);
      assert s == [s[0]] + s[1..];
      [s[0]] + rest
  }

  /** `np.argsort` on the depths, applied to both depths and values: the nodes in order of depth. */
  function SortByDepth(s: seq<DepthNode>): (r: seq<DepthNode>)
    ensures SortedByDepth(r) && multiset(r) == multiset(s)
  {
    if s == [] then []
    else
      assert s == [s[0]] + s[1..];
      InsertByDepth(s[0], SortByDepth(s[1..]))
  }

  /** The nodes `(depths[i], values[i])`; indexing `values` by the depth order drops values beyond `|depths|`. */
  function DepthNodes(depths: seq<real>, values: seq<real>): (s: seq<DepthNode>)
    requires |depths| <= |values|
    ensures |s| == |depths|
  {
    seq(|depths|, i requires 0 <= i < |depths| => (depths[i], values[i]))
  }

  /** The PCHIP curve through the sorted nodes, evaluated at every depth of `logTau`. */
  function PchipProfile(num: Numerics, sorted: seq<DepthNode>, logTau: seq<real>): (out: seq<real>)
    ensures |out| == |logTau|
  {
    var xs := seq(|sorted|, i requires 0 <= i < |sorted| => sorted[i].0);
    var ys := seq(|sorted|, i requires 0 <= i < |sorted| => sorted[i].1);
    seq(|logTau|, j requires 0 <= j < |logTau| => num.pchip(xs, ys, logTau[j]))
  }

  /** The least-squares polynomial of degree k - 1 through the values at the evenly placed depths, evaluated at every depth. */
  function PolynomialProfile(num: Numerics, logTau: seq<real>, values: seq<real>): (out: seq<real>)
    requires |logTau| >= 1 && |values| >= 2
    ensures |out| == |logTau|
  {
    var pos := NodePositions(|logTau|, |values|);
    var at := seq(|values|, i requires 0 <= i < |values| => logTau[pos[i]]);
    var coeff := num.polyfit(at, values, |values| - 1);
    seq(|logTau|, j requires 0 <= j < |logTau| => num.polyval(coeff, logTau[j]))
  }

  /**
   * `_interpolateNodes(logTau, nodes, nodes_logtau, variable)`. With node depths, the PCHIP curve through
   * the nodes (the `variable` is not used); otherwise `variable` (zeros when absent) plus the single node
   * value, or plus the fitted polynomial for two or more nodes; zeros when there are no nodes.
   */
  function InterpolateNodes(num: Numerics, logTau: seq<real>, nodes: seq<real>,
                            nodeDepths: Option<seq<real>>, variable: Option<seq<real>>): (r: Result<seq<real>, Failure>)
    ensures r.Ok? && (nodeDepths.Some? || |nodes| == 0 || variable.None? || |variable.value| == |logTau|) ==> |r.value| == |logTau|
    ensures r.Ok? ==> |r.value| == |logTau| || (variable.Some? && |r.value| == |variable.value|)
  {
    var n := |logTau|;
    var base := variable.GetOr(Zeros(n));
    if nodeDepths.Some? then
      if |nodes| < |nodeDepths.value| then Err(IndexError)
      else Ok(PchipProfile(num, SortByDepth(DepthNodes(nodeDepths.value, nodes)), logTau))
    else if |nodes| == 1 then Add(base, nodes)
    else if |nodes| >= 2 then
      if n == 0 then Err(IndexError)
      else Add(base, PolynomialProfile(num, logTau, nodes))
    else Ok(Zeros(n))
  }

  /** With node depths the result is the PCHIP curve through the depth-sorted nodes, whatever `variable` is. */
  lemma ExplicitDepthsIgnoreVariable(num: Numerics, logTau: seq<real>, nodes: seq<real>, depths: seq<real>,
                                     v1: Option<seq<real>>, v2: Option<seq<real>>)
    ensures InterpolateNodes(num, logTau, nodes, Some(depths), v1) == InterpolateNodes(num, logTau, nodes, Some(depths), v2)
    ensures |nodes| >= |depths| ==>
      var sorted := SortByDepth(DepthNodes(depths, nodes));
      && SortedByDepth(sorted)
      && multiset(sorted) == multiset(DepthNodes(depths, nodes))
      && InterpolateNodes(num, logTau, nodes, Some(depths), v1) == Ok(PchipProfile(num, sorted, logTau))
    ensures |nodes| < |depths| ==> InterpolateNodes(num, logTau, nodes, Some(depths), v1) == Err(IndexError)
  {
  }

  /** One node, no depths: `variable` (zeros by default) plus the node value, at every depth. */
  lemma SingleNodeIsOffset(num: Numerics, logTau: seq<real>, x: real, variable: Option<seq<real>>)
    requires variable.None? || |variable.value| == |logTau|
    ensures InterpolateNodes(num, logTau, [x], None, variable).Ok?
    ensures var r := InterpolateNodes(num, logTau, [x], None, variable).value;
      |r| == |logTau| &&
      forall j :: 0 <= j < |logTau| ==> r[j] == (if variable.Some? then variable.value[j] else 0.0) + x
  {
  }

  /** No nodes, no depths: all zeros. */
  lemma NoNodesIsZero(num: Numerics, logTau: seq<real>, variable: Option<seq<real>>)
    ensures InterpolateNodes(num, logTau, [], None, variable) == Ok(Zeros(|logTau|))
  {
  }

  /**
   * Two or more nodes, no depths: the polynomial fitted through the values at the evenly placed depth
   * indices, plus `variable`, at every depth.
   */
  lemma SeveralNodesArePolynomial(num: Numerics, logTau: seq<real>, nodes: seq<real>, variable: Option<seq<real>>)
    requires |nodes| >= 2 && |logTau| >= 1
    requires variable.None? || |variable.value| == |logTau|
    ensures InterpolateNodes(num, logTau, nodes, None, variable).Ok?
    ensures var r := InterpolateNodes(num, logTau, nodes, None, variable).value;
      var pos := NodePositions(|logTau|, |nodes|);
      var coeff := num.polyfit(seq(|nodes|, i requires 0 <= i < |nodes| => logTau[pos[i]]), nodes, |nodes| - 1);
      |r| == |logTau| &&
      forall j :: 0 <= j < |logTau| ==>
        r[j] == (if variable.Some? then variable.value[j] else 0.0) + num.polyval(coeff, logTau[j])
  {
  }

  /**
   * The interpolation fails exactly when fewer node values than node depths are given, or when two or
   * more nodes are fitted over an empty axis or with a `variable` that cannot be broadcast against the
   * fitted profile.
   */
  lemma InterpolationFailures(num: Numerics, logTau: seq<real>, nodes: seq<real>,
                              nodeDepths: Option<seq<real>>, variable: Option<seq<real>>)
    ensures InterpolateNodes(num, logTau, nodes, nodeDepths, variable).Err? <==>
      if nodeDepths.Some? then |nodes| < |nodeDepths.value|
      else |nodes| >= 2 && (|logTau| == 0 ||
             (variable.Some? && |variable.value| != |logTau| && |variable.value| != 1 && |logTau| != 1))
  {
  }
}
