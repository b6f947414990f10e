/**
 * `build_model` and `build_model_cartesian` (pysir/sir.py): a depth x 6 model whose columns are the
 * interpolated nodes of temperature, microturbulence, field (or Bx), velocity, inclination (or By)
 * and azimuth (or Bz).
 */
module ModelBuilder {
  import opened Wrappers
  import opened Numerics
  import opened Arrays
  import opened Nodes

  const Channels: nat := 6

  /** What `model[:, c]` holds after the loop: zeros for an absent channel, else its interpolation stored into the column. */
  function ChannelColumn(num: Numerics, logTau: seq<real>, depths: Option<seq<real>>,
                         nodes: Option<seq<real>>, variable: Option<seq<real>>): (r: Result<seq<real>, Failure>)
    ensures r.Ok? ==> |r.value| == |logTau|
  {
    if nodes.None? then Ok(Zeros(|logTau|))
    else
      var out :- InterpolateNodes(num, logTau, nodes.value, depths, variable);
      ColumnValues(out, |logTau|)
  }

  /** The first `k` columns, computed in order; the first channel that fails stops the build with its error. */
  function Columns(num: Numerics, logTau: seq<real>, depths: Option<seq<real>>,
                   nodes: seq<Option<seq<real>>>, variables: seq<Option<seq<real>>>, k: nat): (r: Result<seq<seq<real>>, Failure>)
    requires k <= |nodes| == |variables|
    ensures r.Ok? ==> |r.value| == k
  {
    if k == 0 then Ok([])
    else
      var previous :- Columns(num, logTau, depths, nodes, variables, k - 1);
      var column :- ChannelColumn(num, logTau, depths, nodes[k - 1], variables[k - 1]);
      Ok(previous + [column])
  }

  /** The assembled model: row `j` holds the value of every channel at depth `j`. */
  function Assembled(num: Numerics, logTau: seq<real>, depths: Option<seq<real>>,
                     nodes: seq<Option<seq<real>>>, variables: seq<Option<seq<real>>>): Result<Matrix, Failure>
    requires |nodes| == |variables| == Channels
  {
    var columns :- Columns(num, logTau, depths, nodes, variables, Channels);
    ColumnsMatch(num, logTau, depths, nodes, variables, Channels);
    Ok(seq(|logTau|, j requires 0 <= j < |logTau| => seq(Channels, c requires 0 <= c < Channels => columns[c][j])))
  }

  /** Every column of a successful build is the column of its own channel, computed from that channel alone. */
  lemma {:induction false} ColumnsMatch(num: Numerics, logTau: seq<real>, depths: Option<seq<real>>,
                                        nodes: seq<Option<seq<real>>>, variables: seq<Option<seq<real>>>, k: nat)
    requires k <= |nodes| == |variables|
    ensures Columns(num, logTau, depths, nodes, variables, k).Ok? <==>
      forall c :: 0 <= c < k ==> ChannelColumn(num, logTau, depths, nodes[c], variables[c]).Ok?
    ensures Columns(num, logTau, depths, nodes, variables, k).Ok? ==>
      forall c :: 0 <= c < k ==>
        Columns(num, logTau, depths, nodes, variables, k).value[c] == ChannelColumn(num, logTau, depths, nodes[c], variables[c]).value
  {
    if k > 0 {
      ColumnsMatch(num, logTau, depths, nodes, variables, k - 1);
    }
  }

  /** Once a channel has failed, the build fails with that channel's error. */
  lemma {:induction false} ColumnsStayFailed(num: Numerics, logTau: seq<real>, depths: Option<seq<real>>,
                                             nodes: seq<Option<seq<real>>>, variables: seq<Option<seq<real>>>, i: nat, k: nat, e: Failure)
    requires i <= k <= |nodes| == |variables|
    requires Columns(num, logTau, depths, nodes, variables, i) == Err(e)
    ensures Columns(num, logTau, depths, nodes, variables, k) == Err(e)
  {
    if k > i {
      ColumnsStayFailed(num, logTau, depths, nodes, variables, i, k - 1, e);
    }
  }

  /**
   * The loop of `build_model`: start from `np.zeros((n, 6))` and, channel by channel, store the
   * interpolation of every channel that has nodes into its column.
   */
  method Assemble(num: Numerics, logTau: seq<real>, depths: Option<seq<real>>,
                  nodes: seq<Option<seq<real>>>, variables: seq<Option<seq<real>>>) returns (r: Result<array2<real>, Failure>)
    requires |nodes| == |variables| == Channels
    ensures r.Ok? ==> fresh(r.value) && r.value.Length0 == |logTau| && r.value.Length1 == Channels
    ensures r.Ok? ==> Assembled(num, logTau, depths, nodes, variables) == Ok(Snapshot(r.value))
    ensures r.Err? ==> Assembled(num, logTau, depths, nodes, variables) == Err(r.error)
  {
    var n := |logTau|;
    var model := new real[n, Channels]((_, _) => 0.0);
    ghost var columns: seq<seq<real>> := [];
    for i := 0 to Channels
      invariant model.Length0 == n && model.Length1 == Channels
      invariant Columns(num, logTau, depths, nodes, variables, i) == Ok(columns)
      invariant forall c :: 0 <= c < i ==> |columns[c]| == n
      invariant forall j, c :: 0 <= j < n && 0 <= c < i ==> model[j, c] == columns[c][j]
      invariant forall j, c :: 0 <= j < n && i <= c < Channels ==> model[j, c] == 0.0
    {
      var column := ChannelColumn(num, logTau, depths, nodes[i], variables[i]);
      if column.Err? {
        ColumnsStayFailed(num, logTau, depths, nodes, variables, i + 1, Channels, column.error);
        return Err(column.error);
      }
      if nodes[i].Some? {
        forall j | 0 <= j < n {
          model[j, i] := column.value[j];
        }
      }
      columns := columns + [column.value];
    }
    var rows := seq(n, j requires 0 <= j < n => seq(Channels, c requires 0 <= c < Channels => columns[c][j]));
    assert Assembled(num, logTau, depths, nodes, variables) == Ok(rows);
    forall j | 0 <= j < n ensures Snapshot(model)[j] == rows[j] {
      assert forall c :: 0 <= c < Channels ==> Snapshot(model)[j][c] == rows[j][c];
    }
    assert Snapshot(model) == rows;
    return Ok(model);
  }

  /** `build_model(logTau, nodes_logtau, nodes_T, ..., nodes_phiB, var_T, ..., var_phiB)`. */
  method BuildModel(num: Numerics, logTau: seq<real>, depths: Option<seq<real>>,
                    nodesT: Option<seq<real>>, nodesVmic: Option<seq<real>>, nodesB: Option<seq<real>>,
                    nodesV: Option<seq<real>>, nodesThB: Option<seq<real>>, nodesPhiB: Option<seq<real>>,
                    varT: Option<seq<real>>, varVmic: Option<seq<real>>, varB: Option<seq<real>>,
                    varV: Option<seq<real>>, varThB: Option<seq<real>>, varPhiB: Option<seq<real>>)
    returns (r: Result<array2<real>, Failure>)
    ensures r.Ok? ==> fresh(r.value) && r.value.Length0 == |logTau| && r.value.Length1 == Channels
    ensures r.Ok? ==> Assembled(num, logTau, depths, [nodesT, nodesVmic, nodesB, nodesV, nodesThB, nodesPhiB],
                                [varT, varVmic, varB, varV, varThB, varPhiB]) == Ok(Snapshot(r.value))
    ensures r.Err? ==> Assembled(num, logTau, depths, [nodesT, nodesVmic, nodesB, nodesV, nodesThB, nodesPhiB],
                                 [varT, varVmic, varB, varV, varThB, varPhiB]) == Err(r.error)
  {
    r := Assemble(num, logTau, depths, [nodesT, nodesVmic, nodesB, nodesV, nodesThB, nodesPhiB],
                  [varT, varVmic, varB, varV, varThB, varPhiB]);
  }

  /** `build_model_cartesian`: the same build, with Bx, By and Bz in the places of B, inclination and azimuth. */
  method BuildModelCartesian(num: Numerics, logTau: seq<real>, depths: Option<seq<real>>,
                             nodesT: Option<seq<real>>, nodesVmic: Option<seq<real>>, nodesBx: Option<seq<real>>,
                             nodesV: Option<seq<real>>, nodesBy: Option<seq<real>>, nodesBz: Option<seq<real>>,
                             varT: Option<seq<real>>, varVmic: Option<seq<real>>, varB: Option<seq<real>>,
                             varV: Option<seq<real>>, varThB: Option<seq<real>>, varPhiB: Option<seq<real>>)
    returns (r: Result<array2<real>, Failure>)
    ensures r.Ok? ==> fresh(r.value) && r.value.Length0 == |logTau| && r.value.Length1 == Channels
    ensures r.Ok? ==> Assembled(num, logTau, depths, [nodesT, nodesVmic, nodesBx, nodesV, nodesBy, nodesBz],
                                [varT, varVmic, varB, varV, varThB, varPhiB]) == Ok(Snapshot(r.value))
    ensures r.Err? ==> Assembled(num, logTau, depths, [nodesT, nodesVmic, nodesBx, nodesV, nodesBy, nodesBz],
                                 [varT, varVmic, varB, varV, varThB, varPhiB]) == Err(r.error)
  {
    r := Assemble(num, logTau, depths, [nodesT, nodesVmic, nodesBx, nodesV, nodesBy, nodesBz],
                  [varT, varVmic, varB, varV, varThB, varPhiB]);
  }

  /**
   * A built model has one row per depth and six columns; column `c` is all zeros when channel `c`
   * has no nodes, and otherwise the interpolation of its nodes (with its own `variable`) stored into the column.
   */
  lemma AssembledColumns(num: Numerics, logTau: seq<real>, depths: Option<seq<real>>,
                         nodes: seq<Option<seq<real>>>, variables: seq<Option<seq<real>>>)
    requires |nodes| == |variables| == Channels
    ensures var m := Assembled(num, logTau, depths, nodes, variables);
      m.Ok? ==>
        && IsShape(m.value, |logTau|, Channels)
        && (forall j, c :: 0 <= j < |logTau| && 0 <= c < Channels && nodes[c].None? ==> m.value[j][c] == 0.0)
        && forall c :: 0 <= c < Channels && nodes[c].Some? ==>
             var out := InterpolateNodes(num, logTau, nodes[c].value, depths, variables[c]);
             && out.Ok?
             && ColumnValues(out.value, |logTau|).Ok?
             && forall j :: 0 <= j < |logTau| ==> m.value[j][c] == ColumnValues(out.value, |logTau|).value[j]
  {
    ColumnsMatch(num, logTau, depths, nodes, variables, Channels);
  }

  /** The build fails exactly when some channel with nodes fails to interpolate or to fit its column. */
  lemma AssembledFailure(num: Numerics, logTau: seq<real>, depths: Option<seq<real>>,
                         nodes: seq<Option<seq<real>>>, variables: seq<Option<seq<real>>>)
    requires |nodes| == |variables| == Channels
    ensures Assembled(num, logTau, depths, nodes, variables).Err? <==>
      exists c :: 0 <= c < Channels && ChannelColumn(num, logTau, depths, nodes[c], variables[c]).Err?
  {
    ColumnsMatch(num, logTau, depths, nodes, variables, Channels);
  }

  /** Columns are filled independently: two builds that agree on one channel's inputs agree on that column. */
  lemma ChannelsIndependent(num: Numerics, logTau: seq<real>, depths: Option<seq<real>>,
                            nodes1: seq<Option<seq<real>>>, variables1: seq<Option<seq<real>>>,
                            nodes2: seq<Option<seq<real>>>, variables2: seq<Option<seq<real>>>, c: nat)
    requires |nodes1| == |variables1| == |nodes2| == |variables2| == Channels && c < Channels
    requires nodes1[c] == nodes2[c] && variables1[c] == variables2[c]
    requires Assembled(num, logTau, depths, nodes1, variables1).Ok? && Assembled(num, logTau, depths, nodes2, variables2).Ok?
    ensures forall j :: 0 <= j < |logTau| ==>
      Assembled(num, logTau, depths, nodes1, variables1).value[j][c] == Assembled(num, logTau, depths, nodes2, variables2).value[j][c]
  {
    ColumnsMatch(num, logTau, depths, nodes1, variables1, Channels);
    ColumnsMatch(num, logTau, depths, nodes2, variables2, Channels);
  }
}
