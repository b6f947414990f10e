# pySIR in Dafny

pySIR is a Python front end to SIR (Stokes Inversion based on Response functions), a native
radiative-transfer code that synthesises the Stokes profiles of spectral lines, and their response
functions, for a model solar atmosphere. This project models the logic that the Python layer
puts in front of that engine and proves properties of it:

- **Line groups and the grid file** (`LineGrid`, `Text`). The wrapper counts the spectral lines in the
  requested groups, and it writes `malla.grid`: a fixed seven-line header, then one record per group.
  `pysir/sir.py` ends each record with a newline. `pySIR.py` does not, so its records run together on
  one line.
- **The line listing** (`LineList`). The `LINEAS` database is shown without its last line, and each
  line loses its final character.
- **Node interpolation** (`Nodes`). One physical quantity is expanded from a few node values to every
  depth of the `log tau` axis. The cases are:
  - PCHIP through depth-sorted nodes, when node depths are given;
  - a constant offset of a baseline, for one node;
  - a polynomial through evenly placed depth indices, for two or more nodes;
  - zeros, for no nodes.
- **Model building** (`ModelBuilder`). A depth × 6 array is filled column by column in a loop.
- **Model normalisation** (`Normalizer`).
  - A 7-column model gets an electron-pressure column with a boundary value.
  - Optionally, a Cartesian (Bx, By, Bz) field is rewritten in place as strength, inclination and azimuth.
- **Synthesis orchestration** (`Synthesis` with the class `SIR`, and `PySIR` for the procedural
  wrapper). The departure coefficients get their default, and `returnRF` chooses between the two
  engine entry points.

Floating-point primitives are abstract. They are the fields of `Numerics.Numerics`: `sqrt`, `acos`,
`atan2`, PCHIP evaluation, `polyfit` and `polyval`. The native engine (`init`, `synth`, `synthRF`) is a
record of functions (`Synthesis.Engine`, `PySIR.LegacyEngine`), and the PSF it holds is explicit
state. Float-to-text formatting of the grid numbers is a parameter `fmt: real -> string`. numpy
arrays that the code updates in place are `array2<real>`. `Arrays.Snapshot` views them as
`seq<seq<real>>`, and the specification functions work on that view.

Notes on how the model reads the code:

- **Aliased azimuth.** The Cartesian conversion (pysir/sir.py:209-215) is modelled as written.
  - `Bx`, `By` and `Bz` are numpy views of columns 4, 6 and 7.
  - So by the time line 215 runs, `By` and `Bx` already hold the new inclination and strength.
  - The azimuth is therefore `atan2(inclination, strength)` in degrees, not `atan2(By, Bx)`.
  - `Normalizer.BySignIsLost` proves the consequence: fields that differ only in the sign of By
    convert to the same row.
- **Free functions.** `_interpolateNodes`, `build_model` and `build_model_cartesian` are defined in
  the class body without `self`. `build_model` also calls `_interpolateNodes` by its bare name, which
  is not in scope there. As written, a call in which some `nodes_*` is given raises `NameError`; with
  every channel absent, the name is never reached and `np.zeros((n, 6))` comes back. The model treats
  the three as the free functions they are evidently meant to be.
- **Six columns.** The docstrings of `build_model` and `build_model_cartesian` promise an
  `[nDepth x 7]` array (pysir/sir.py:112, 143). The code builds `np.zeros((n, 6))`, with no log-tau
  column, and `ModelBuilder` follows the code.
- **Result length.** The interpolation has `len(logTau)` values whenever node depths are given, there
  are no nodes, or `variable` is absent or has that length (`Nodes.InterpolateNodes`). Otherwise
  numpy broadcasting in `variable + ...` decides, and a successful result is as long as `logTau` or
  as `variable`:
  - with one node, the result has `len(variable)` values and never fails, since the node side has length 1;
  - with two or more nodes, a length-1 `variable`, or a one-point axis, is broadcast; any other length
    mismatch raises an error (`Nodes.InterpolationFailures`).
- **Errors.** `Arrays.Failure` models the numpy errors the code can raise:
  - `IndexError` for a 7-column model with no rows (`model[-1, 2]`);
  - `IndexError` for a Cartesian model given with fewer than 7 columns (a 7-column model is widened to 8 first);
  - `IndexError` for two or more nodes over an empty axis;
  - `IndexError` for fewer node values than node depths;
  - `ShapeMismatch` for operands that cannot be broadcast.

  Extra node values beyond the node depths are dropped silently, as `nodes[ind]` does.
- **Caller's array.** `synthesize` writes into the caller's array only in one case: `cartesian` is
  set and the model has 8 or more columns. A 7-column model is first copied by `np.insert`. A model
  of 5 or 6 columns raises `IndexError` at `model[:, 6]` (pysir/sir.py:211) before any write.
  `SIR.Synthesize` states both outcomes.

## Model

| member | source | states |
|---|---|---|
| Text.SplitCount | pysir/sir.py:34 | `s.split(',')` has one more piece than `s` has commas |
| Text.Split | pysir/sir.py:34 | `str.split(sep)` always yields at least one piece |
| Text.SplitJoin | pysir/sir.py:34 | joining the pieces of a split with the separator gives back the string |
| Text.SplitPiecesFree | pysir/sir.py:34 | no piece of `split(',')` contains a comma |
| Text.ReadLinesTerminated | pysir/sir.py:65-66 | `readlines()` of newline-terminated lines followed by a tail returns those lines, each with its newline, then the tail's lines |
| Text.ReadLines | pysir/sir.py:65-66 | `readlines()` of an empty file is empty; every line is non-empty, and every line but the last ends with its newline |
| LineGrid.CountLinesByCommas | pysir/sir.py:33-34 | `nLines` is the sum over the groups of their number of commas plus one |
| LineGrid.CountLines | pysir/sir.py:33-34 | the `sum` over the groups of `len(f.split(','))` counts at least one line per group |
| LineGrid.CountLinesPair | test/example.py:7-8 | the group `'200,201'` selects two lines |
| LineGrid.CountLinesTwoGroups | pysir/sir.py:33-34 | groups `'1'` and `'2,3,4'` select four lines |
| LineGrid.CountLinesEmptyIndices | pysir/sir.py:34 | an empty index string still counts as one line |
| LineGrid.HeaderLayout | pysir/sir.py:37-43 | the header has seven newline-free lines, the fourth empty, and its last line begins with six dashes |
| LineGrid.WriteGridFile | pysir/sir.py:36-47 | the text written is the header followed by the record of each group in order, in either layout |
| LineGrid.Records | pysir/sir.py:45-46 | the group records are empty exactly when there are no groups |
| LineGrid.GridText | pysir/sir.py:36-47 | the grid file starts with the header, and is longer than it exactly when there are groups |
| LineGrid.AppendRecords | pysir/sir.py:45-46 | the writing loop appends the records of all groups to what was already written |
| LineGrid.SirRecords | pysir/sir.py:45-46 | in the pysir/sir.py layout the records are the group lines, each followed by a newline |
| LineGrid.GridFileLines | pysir/sir.py:36-47 | read back, the grid file is exactly the seven header lines, then `idx + "            :  " + a, b, c` for each group in input order |
| LineGrid.LegacyGridFileLines | pySIR.py:38-49 | read back, the pySIR.py grid file is the header lines, then all group records concatenated on one line without a newline |
| LineList.ListingOfDatabase | pysir/sir.py:65-71 | for a database of k newline-terminated lines, the listing is the title, then the first k − 1 lines, unchanged and in order |
| LineList.ListingOfLines | pySIR.py:13-19 | lines that end in a newline are listed, except the last, without that newline |
| LineList.Listing | pySIR.py:17-19 | the listing has the title plus one entry for every line but the last |
| Nodes.NodePositions | pysir/sir.py:91 | there are k node positions, each a depth index within `[0, n − 1]` |
| Nodes.NodePositionsEnds | pysir/sir.py:91 | the first node sits at depth index 0 and the last at n − 1 |
| Nodes.NodePositionsNondecreasing | pysir/sir.py:91 | node positions never decrease |
| Nodes.NodePositionsIncreasing | pysir/sir.py:91 | with k ≤ n, node positions strictly increase |
| Nodes.InsertByDepth | pysir/sir.py:82-83 | inserting a node into depth-sorted nodes keeps them sorted and adds exactly that node |
| Nodes.SortByDepth | pysir/sir.py:82-83 | `np.argsort` applied to depths and values gives the same nodes, sorted by depth |
| Nodes.InterpolateNodes | pysir/sir.py:73-94 | a successful interpolation has one value per depth when node depths are given, there are no nodes, or `variable` is absent or has that length; otherwise it is as long as `logTau` or as `variable` |
| Nodes.ExplicitDepthsIgnoreVariable | pysir/sir.py:81-85 | with node depths, the result does not depend on `variable`; it is the PCHIP profile through the nodes sorted by depth, or an error when values are fewer than depths |
| Nodes.SingleNodeIsOffset | pysir/sir.py:76-88 | with one node, every depth gets `variable[j]` (zero by default) plus the node value |
| Nodes.NoNodesIsZero | pysir/sir.py:79-94 | with no nodes and no depths, the result is all zeros whatever `variable` is |
| Nodes.SeveralNodesArePolynomial | pysir/sir.py:90-93 | with k ≥ 2 nodes, every depth gets `variable[j]` plus polyval of the degree-(k − 1) polyfit through the values at the evenly placed depths |
| Nodes.InterpolationFailures | pysir/sir.py:73-94 | the interpolation fails exactly when values are fewer than depths, or when k ≥ 2 nodes meet an empty axis or a `variable` that cannot be broadcast |
| Arrays.Add | pysir/sir.py:88 | `variable + nodes` adds elementwise, broadcasts a length-1 side, and fails on any other shape pair |
| Arrays.ColumnValues | pysir/sir.py:121 | `model[:, i] = out` stores `out`, or its one value repeated, and fails on any other length |
| ModelBuilder.ChannelColumn | pysir/sir.py:119-123 | a channel's column has one value per depth |
| ModelBuilder.ColumnsMatch | pysir/sir.py:118-123 | the columns computed in order succeed exactly when every channel succeeds, and each is its own channel's column |
| ModelBuilder.ColumnsStayFailed | pysir/sir.py:118-123 | once a channel fails, the build fails with that channel's error |
| ModelBuilder.Assemble | pysir/sir.py:117-125 | the loop over six channels yields a new depth × 6 array equal to the assembled model, or the error of the failing channel |
| ModelBuilder.BuildModel | pysir/sir.py:114-125 | `build_model` is the assembly of the channels T, vmic, B, v, inclination and azimuth |
| ModelBuilder.BuildModelCartesian | pysir/sir.py:145-156 | `build_model_cartesian` is the same assembly with Bx, By and Bz in the field places, and the same `var_*` arguments |
| ModelBuilder.AssembledColumns | pysir/sir.py:117-125 | a built model has depth × 6 shape; a channel without nodes is all zeros, any other column is its channel's interpolation |
| ModelBuilder.AssembledFailure | pysir/sir.py:118-123 | the build fails exactly when some channel fails |
| ModelBuilder.ChannelsIndependent | pysir/sir.py:118-123 | two builds that agree on one channel's inputs agree on that column |
| Normalizer.InsertColumn | pysir/sir.py:205 | `np.insert(..., 2, -1, axis=1)` keeps columns before 2, fills column 2 and shifts the rest one place right |
| Normalizer.WithElectronPressure | pysir/sir.py:204-207 | a 7-column model with rows becomes an 8-column model with the same number of rows |
| Normalizer.ElectronPressureLayout | pysir/sir.py:204-207 | the 7-column model becomes 8 columns: 0–1 kept, 2–6 moved to 3–7, column 2 is −1 except the last row, which is 0.111634 |
| Normalizer.WithAllColumns | pySIR.py:87-90 | a 7-column model gains the electron pressure and fails only with no rows; other widths pass |
| Normalizer.OtherWidthsPassThrough | pySIR.py:87-93 | a model of any width but 7 is left exactly as given |
| Normalizer.InsertElectronPressure | pysir/sir.py:204-207 | the insertion and the boundary write give a new 8-column array holding the normalised model |
| Normalizer.Strength | pysir/sir.py:213 | the field strength is never negative, so the regularised division on line 214 is defined |
| Normalizer.SphericalRow | pysir/sir.py:209-215 | the Cartesian conversion changes only columns 4, 6 and 7 of a row |
| Normalizer.StrengthColumn | pysir/sir.py:213 | the new column 4 is non-negative at every depth |
| Normalizer.WithColumn | pysir/sir.py:213-215 | a column assignment replaces that column and leaves every other value |
| Normalizer.ConvertToSpherical | pysir/sir.py:209-215 | the three in-place column writes, in source order, turn the array into the row-wise conversion of its old contents |
| Normalizer.Spherical | pysir/sir.py:209-215 | the row-wise Cartesian conversion keeps the model's shape |
| Normalizer.SphericalByColumns | pysir/sir.py:210-215 | writing columns 4, 6 and 7 in turn, each from the array as the previous write left it, is the row-wise conversion |
| Normalizer.ConvertedRow | pysir/sir.py:210-215 | a row with the three converted columns, and agreeing elsewhere, is the converted row |
| Normalizer.SphericalRowValues | pysir/sir.py:213-215 | col4 = sqrt(Bx²+By²+Bz²); col6 = (180/π)·acos(Bz/(col4 + 1e-8)) with a positive divisor; col7 = (180/π)·atan2(new col6, new col4) |
| Normalizer.ZeroFieldIsRegular | pysir/sir.py:214 | a zero field divides by sqrt(0) + 1e-8, and its inclination is acos(0) in degrees |
| Normalizer.BySignIsLost | pysir/sir.py:210-215 | because the azimuth reads the overwritten columns, flipping the sign of By does not change the converted row |
| Normalizer.Normalize | pysir/sir.py:204-215 | the normalised model has 8 columns for a 7-column input and the input width otherwise; it fails exactly with no rows at width 7, or with `cartesian` below 7 columns, and every failure is an `IndexError` |
| Synthesis.DefaultDeparture | pysir/sir.py:217-218 | the default departure coefficients are all ones, of shape (2, nLines, number of depths) |
| Synthesis.Run | pysir/sir.py:220-225 | the engine call returns (stokes, rf) from `synthRF` exactly when `returnRF` is set |
| Synthesis.Synthesized | pysir/sir.py:167-225 | `synthesize` on values, with the keyword defaults of line 167; every failure is an `IndexError` of the normalisation |
| Synthesis.SIR.constructor | pysir/sir.py:14-59 | `nLines` is the comma count plus one per group; the grid file is the header plus the group records; `nLambda` is the engine's count for that file |
| Synthesis.SIR.SetPsf | pysir/sir.py:158-165 | the given PSF becomes the one every later synthesis uses |
| Synthesis.SIR.Synthesize | pysir/sir.py:167-225 | with the keyword defaults of line 167, the result is `Synthesized`: the engine, initialised on this session's grid file, run on the normalised model with the defaulted departure; the caller's array holds the Cartesian conversion when `cartesian` applies to a model of 8+ columns, and is unchanged otherwise; for an engine of the documented shapes, stokes is (5, `nLambda`) with the session's `nLambda` |
| Synthesis.ResultFollowsFlag | pysir/sir.py:220-225 | a synthesis returns (stokes, rf) exactly when `returnRF` is set |
| Synthesis.SynthesisFailures | pysir/sir.py:204-215 | a synthesis fails exactly for a 7-column model with no rows or a Cartesian model below 7 columns |
| Synthesis.DepartureDefaultsToOnes | pysir/sir.py:217-218 | omitting `departure` is the same as passing ones of shape (2, nLines, depths) |
| Synthesis.SpectraShapes | pysir/sir.py:198-202 | with an engine of the documented shapes, a synthesis on the grid the engine read has stokes of (5, nLambda) for that grid's nLambda, and rf is seven (4, nLambda, depth) tensors plus a (4, nLambda) macroturbulence response |
| Synthesis.DefaultCallReturnsResponse | pysir/sir.py:167 | a call with the model alone (`stokes, rf = SIR.synthesize(out)`) returns the response functions, and fails only for a 7-column model with no rows |
| PySIR.InitializeSIR | pySIR.py:38-51 | writes the header plus the newline-less group records and returns the engine's wavelength count for that file |
| PySIR.LegacySynthesis | pySIR.py:62-97 | `synthesizeSIR` on values, with the keyword defaults of line 62; every failure is an `IndexError` |
| PySIR.SynthesizeSIR | pySIR.py:62-97 | with the keyword defaults of line 62, the result is the engine, on the grid it read, run on the model with its electron-pressure column; the caller's array is not written; for an engine of the documented shapes, stokes is (5, nLambda) and rf has the shapes of lines 81-85 |
| PySIR.OtherWidthsReachEngine | pySIR.py:87-93 | a model of any width but 7, 8 columns included, reaches the engine unchanged |
| PySIR.SevenColumnsReachEngine | pySIR.py:87-96 | a 7-column model fails exactly when it has no rows; otherwise `synth` (without `returnRF`) or `synthRF` (with it) gets the model with the electron-pressure column |
| PySIR.LegacyResultFollowsFlag | pySIR.py:92-97 | the result is (stokes, rf) exactly when `returnRF` is set, and fails only for a 7-column model with no rows |
| PySIR.LegacyDefaultCallReturnsResponse | pySIR.py:62 | a call with the model alone returns the response functions, and fails only for a 7-column model with no rows |
| PySIR.LegacySpectraShapes | pySIR.py:81-85 | with an engine of the documented shapes, stokes is (5, nLambda) for the grid the engine read, and rf is seven (4, nLambda, depth) tensors plus a (4, nLambda) macroturbulence response |

## Left out

- The native SIR engine (`init`, `setPSF`, `synth`, `synthRF`) is foreign code. It is an abstract
  record of functions. The grid file it read at `init` is passed explicitly to `synth` and `synthRF`.
  Its documented output shapes appear only as the `Synthesis.Conforms` and `PySIR.LegacyConforms` hypotheses. Its functions are
  total, so an error raised inside the native code, which the wrapper passes through unchanged, is
  not expressed.
- Synthesis.SIR.Synthesize: the engine's grid is process-wide state, set by the most recent
  `SIR(...)` (the `init()` at pysir/sir.py:59 reads whatever `malla.grid` is in the working directory).
  After a second session is constructed, the first one's `synthesize` runs on the second one's grid
  while its `nLambda` keeps the old count. The model gives each `SIR` its own grid, so its
  `(5, nLambda)` shape promise holds only while no later session has been constructed.
- `sqrt`, `arccos`, `arctan2`, `PchipInterpolator`, `np.polyfit` and `np.polyval` are abstract. No
  accuracy, rounding, NaN or overflow behaviour is modelled, and values are exact reals rather than
  IEEE doubles or `float32`.
- scipy's own input checks on PCHIP are not modelled: at least two points, strictly increasing depths.
  polyfit's rank-deficiency warning is not modelled either.
- Nodes.SortByDepth: an insertion sort that keeps equal depths in input order. `np.argsort`'s
  unstable order among equal depths is not modelled.
- Nodes.NodePositions: the exact `i * (n - 1) / (k - 1)` rounded down; the float rounding of
  `np.linspace(..., dtype=int)` is not modelled.
- File I/O is not modelled:
  - `malla.grid` is modelled as the string written (`LineGrid.GridText`);
  - `LINEAS` is modelled as the lines `readlines()` returns (see `Text.ReadLines` below);
  - the existence checks and copies of `LINEAS` and `THEVENIN` are left out;
  - `print` is left out.
- Float-to-text formatting in `str.format` is the parameter `fmt`.
- Text.ReadLines: the text is taken after the newline translation of a file opened in text mode
  (`open('LINEAS', 'r')`), so `'\r\n'` and `'\r'` line ends never reach the model; it splits only at `'\n'`.
- `setPSF` in pySIR.py is a one-line forward to the engine. `PySIR.SynthesizeSIR` takes the PSF the
  engine holds as a parameter. The PSF is native global state shared by every `SIR` instance; the
  model keeps it per instance.
- The example and test drivers (example.py, test/example.py, test/example2.py, test/ca8542.py) are
  scripts that load data and plot. Only `test/example.py`'s line group is used, as a lemma.
- Matplotlib only draws, and the `__main__` block of pySIR.py is a demo; neither is modelled.
