/** The numpy semantics the core relies on: zero-filled arrays, 1-D broadcasting, column assignment, 2-D arrays as values. */
module Arrays {
  import opened Wrappers

  /** The numpy errors the core can raise. */
  datatype Failure =
    | IndexError     // an index beyond an axis
    | ShapeMismatch  // operands that cannot be broadcast together

  /** A 2-D array as a value: a sequence of rows. */
  type Matrix = seq<seq<real>>

  predicate IsShape(m: Matrix, rows: nat, cols: nat) {
    |m| == rows && forall i :: 0 <= i < |m| ==> |m[i]| == cols
  }

  /** The current contents of a 2-D array, row by row. */
  function Snapshot(a: array2<real>): (m: Matrix)
    reads a
    ensures IsShape(m, a.Length0, a.Length1)
    ensures forall i, j :: 0 <= i < a.Length0 && 0 <= j < a.Length1 ==> m[i][j] == a[i, j]
  {
    seq(a.Length0, i reads a requires 0 <= i < a.Length0 =>
      seq(a.Length1, j reads a requires 0 <= j < a.Length1 => a[i, j]))
  }

  /** `np.zeros(n)`. */
  function Zeros(n: nat): (z: seq<real>)
    ensures |z| == n && forall i :: 0 <= i < n ==> z[i] == 0.0
  {
    seq(n, _ => 0.0)
  }

  /** `a + b` on 1-D arrays: equal lengths add elementwise, a length-1 operand is broadcast, anything else is an error. */
  function Add(a: seq<real>, b: seq<real>): (r: Result<seq<real>, Failure>)
    ensures r.Ok? <==> |a| == |b| || |a| == 1 || |b| == 1
    ensures r.Ok? ==> |r.value| == (if |a| == 1 then |b| else |a|)
    ensures r.Ok? ==> forall j :: 0 <= j < |r.value| ==>
      r.value[j] == (if |a| == 1 then a[0] else a[j]) + (if |b| == 1 then b[0] else b[j])
  {
    if |a| == |b| then Ok(seq(|a|, j requires 0 <= j < |a| => a[j] + b[j]))
    else if |a| == 1 then Ok(seq(|b|, j requires 0 <= j < |b| => a[0] + b[j]))
    else if |b| == 1 then Ok(seq(|a|, j requires 0 <= j < |a| => a[j] + b[0]))
    else Err(ShapeMismatch)
  }

  /** The values `model[:, i] = out` stores in a column of height `n`: `out` itself, or its one value repeated. */
  function ColumnValues(out: seq<real>, n: nat): (r: Result<seq<real>, Failure>)
    ensures r.Ok? <==> |out| == n || |out| == 1
    ensures r.Ok? ==> |r.value| == n && forall j :: 0 <= j < n ==> r.value[j] == (if |out| == n then out[j] else out[0])
  {
    if |out| == n then Ok(out)
    else if |out| == 1 then Ok(seq(n, _ => out[0]))
    else Err(ShapeMismatch)
  }
}
