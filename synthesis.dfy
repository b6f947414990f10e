/** The `SIR` class of pysir/sir.py: initialisation, the PSF setting and the call into the native synthesis. */
module Synthesis {
  import opened Wrappers
  import opened Numerics
  import opened Arrays
  import opened LineGrid
  import opened Normalizer

  type Tensor3 = seq<Matrix>

  predicate IsShape3(t: Tensor3, a: nat, b: nat, c: nat) {
    |t| == a && forall k :: 0 <= k < a ==> IsShape(t[k], b, c)
  }

  /** The spectral PSF given to the native code: wavelength offsets (mA) and transmissions. */
  datatype Psf = Psf(x: seq<real>, y: seq<real>)

  /** The response functions to T, Pe, vmic, B, v, theta and phi, one tensor each, and the one to macroturbulence. */
  datatype ResponseFunctions = ResponseFunctions(perDepth: seq<Tensor3>, macroturbulence: Matrix)

  /** What a synthesis returns: the Stokes parameters alone, or together with the response functions. */
  datatype Spectra = StokesOnly(stokes: Matrix) | StokesAndResponse(stokes: Matrix, rf: ResponseFunctions)

  /**
   * The native SIR engine. `init` reads the grid file and returns the number of wavelength points;
   * `synth` and `synthRF` take the grid the engine was initialised on, the model, the departure
   * coefficients, macroturbulence, filling factor, stray light and the PSF currently set in the engine.
   */
  datatype Engine = Engine(
    init: string -> nat,
    synth: (string, Matrix, Tensor3, real, real, real, Option<Psf>) -> Matrix,
    synthRF: (string, Matrix, Tensor3, real, real, real, Option<Psf>) -> (Matrix, ResponseFunctions))

  /**
   * The shapes the engine documents: on a grid of `init(grid)` wavelengths, Stokes (5, nLambda), seven
   * response functions of (4, nLambda, nDepth) and a macroturbulence response of (4, nLambda).
   */
  ghost predicate Conforms(engine: Engine) {
    && (forall g, m, d, v, f, s, p :: IsShape(engine.synth(g, m, d, v, f, s, p), 5, engine.init(g)))
    && (forall g, m, d, v, f, s, p :: ResponseConforms(engine.synthRF(g, m, d, v, f, s, p), engine.init(g), |m|))
  }

  predicate ResponseConforms(out: (Matrix, ResponseFunctions), nLambda: nat, depth: nat) {
    && IsShape(out.0, 5, nLambda)
    && |out.1.perDepth| == 7
    && (forall k :: 0 <= k < 7 ==> IsShape3(out.1.perDepth[k], 4, nLambda, depth))
    && IsShape(out.1.macroturbulence, 4, nLambda)
  }

  /** Stokes of (5, nLambda) and, when the response functions are returned, those of `ResponseConforms`. */
  predicate SpectraConform(r: Spectra, nLambda: nat, depth: nat) {
    && IsShape(r.stokes, 5, nLambda)
    && (r.StokesAndResponse? ==> ResponseConforms((r.stokes, r.rf), nLambda, depth))
  }

  /** `np.ones((2, nLines, rows))`: the departure coefficients of LTE. */
  function DefaultDeparture(nLines: nat, rows: nat): (d: Tensor3)
    ensures IsShape3(d, 2, nLines, rows)
    ensures forall k, l, j :: 0 <= k < 2 && 0 <= l < nLines && 0 <= j < rows ==> d[k][l][j] == 1.0
  {
    seq(2, k => seq(nLines, l => seq(rows, j => 1.0)))
  }

  /** The engine call chosen by `returnRF`. */
  function Run(engine: Engine, grid: string, m: Matrix, departure: Tensor3, macroturbulence: real, fillingFactor: real,
               stray: real, psf: Option<Psf>, returnRF: bool): (r: Spectra)
    ensures r.StokesAndResponse? <==> returnRF
  {
    if returnRF then
      var out := engine.synthRF(grid, m, departure, macroturbulence, fillingFactor, stray, psf);
      StokesAndResponse(out.0, out.1)
    else
      StokesOnly(engine.synth(grid, m, departure, macroturbulence, fillingFactor, stray, psf))
  }

  /**
   * `SIR.synthesize` on values, with the keyword defaults of pysir/sir.py: normalise the model, default
   * the departure coefficients, run the engine initialised on `grid`.
   */
  function Synthesized(engine: Engine, grid: string, psf: Option<Psf>, nLines: nat, num: Numerics, m: Matrix, cols: nat,
                     departure: Option<Tensor3> := None, macroturbulence: real := 0.0, fillingFactor: real := 1.0,
                     stray: real := 0.0, returnRF: bool := true, cartesian: bool := false): (r: Result<Spectra, Failure>)
    requires IsShape(m, |m|, cols) && SqrtNonNegative(num)
    ensures r.Err? ==> r.error == IndexError
  {
    var normalized :- Normalize(num, m, cols, cartesian);
    var d := departure.GetOr(DefaultDeparture(nLines, |m|));
    Ok(Run(engine, grid, normalized, d, macroturbulence, fillingFactor, stray, psf, returnRF))
  }

  class SIR {
    const engine: Engine
    /** The number of spectral lines over all groups. */
    const nLines: nat
    /** The number of wavelength points, as the engine counted them in the grid file. */
    const nLambda: nat
    /** The contents written to `malla.grid`. */
    const gridFile: string
    /** The PSF held by the native engine; none until `SetPsf`. */
    var psf: Option<Psf>

    /** The engine's wavelength count is the one it read from this session's grid file. */
    predicate Valid() {
      nLambda == engine.init(gridFile)
    }

    /** `SIR(lines)`: counts the lines, writes the grid file and initialises the engine on it. */
    constructor (groups: seq<LineGroup>, engine: Engine, fmt: real -> string)
      ensures this.engine == engine && psf == None
      ensures nLines == CommaCount(groups)
      ensures gridFile == GridText(groups, Sir, fmt)
      ensures nLambda == engine.init(gridFile) && Valid()
    {
      this.engine := engine;
      CountLinesByCommas(groups);
      nLines := CountLines(groups);
      var text := WriteGridFile(groups, Sir, fmt);
      gridFile := text;
      nLambda := engine.init(text);
      psf := None;
    }

    /** `set_PSF`: hands the PSF to the engine, which uses it in every later synthesis. */
    method SetPsf(x: seq<real>, y: seq<real>)
      modifies this
      ensures psf == Some(Psf(x, y))
    {
      psf := Some(Psf(x, y));
    }

    /**
     * `synthesize`. A 7-column model is copied into a new 8-column array, so the caller's array stays
     * as it was; any other model is used as given, and the Cartesian conversion then rewrites the
     * caller's own array. A model too narrow for the conversion fails before anything is written.
     */
    method Synthesize(num: Numerics, model: array2<real>, departure: Option<Tensor3> := None,
                      macroturbulence: real := 0.0, fillingFactor: real := 1.0, stray: real := 0.0,
                      returnRF: bool := true, cartesian: bool := false) returns (r: Result<Spectra, Failure>)
      requires Valid() && SqrtNonNegative(num)
      modifies model
      ensures r == Synthesized(engine, gridFile, psf, nLines, num, old(Snapshot(model)), model.Length1, departure,
                             macroturbulence, fillingFactor, stray, returnRF, cartesian)
      ensures Snapshot(model) == if cartesian && model.Length1 >= 8 then Spherical(num, old(Snapshot(model)), model.Length1)
                                 else old(Snapshot(model))
      ensures Conforms(engine) && r.Ok? ==> SpectraConform(r.value, nLambda, model.Length0)
    {
      ghost var m := Snapshot(model);
      var cols := model.Length1;
      var normalized := model;
      if cols == 7 {
        if model.Length0 == 0 {
          assert WithAllColumns(m, cols) == Err(IndexError);
          return Err(IndexError);
        }
        normalized := InsertElectronPressure(model);
      }
      if cartesian {
        if normalized.Length1 < 8 {
          assert cols != 7 && WithAllColumns(m, cols) == Ok(m);
          return Err(IndexError);
        }
        ConvertToSpherical(num, normalized);
      }
      var d := if departure.Some? then departure.value else DefaultDeparture(nLines, normalized.Length0);
      r := Ok(Run(engine, gridFile, Snapshot(normalized), d, macroturbulence, fillingFactor, stray, psf, returnRF));
      if Conforms(engine) {
        SpectraShapes(engine, gridFile, psf, nLines, num, m, model.Length1, departure, macroturbulence, fillingFactor,
                      stray, returnRF, cartesian);
      }
    }
  }

  /** The result is tagged by `returnRF`: the pair from `synthRF` exactly when it is set. */
  lemma ResultFollowsFlag(engine: Engine, grid: string, psf: Option<Psf>, nLines: nat, num: Numerics, m: Matrix, cols: nat,
                          departure: Option<Tensor3>, macroturbulence: real, fillingFactor: real, stray: real,
                          returnRF: bool, cartesian: bool)
    requires IsShape(m, |m|, cols) && SqrtNonNegative(num)
    ensures var r := Synthesized(engine, grid, psf, nLines, num, m, cols, departure, macroturbulence, fillingFactor, stray, returnRF, cartesian);
      r.Ok? ==> (r.value.StokesAndResponse? <==> returnRF)
  {
  }

  /** Synthesis fails only on a 7-column model without rows, or a Cartesian model without columns 4, 6 and 7. */
  lemma SynthesisFailures(engine: Engine, grid: string, psf: Option<Psf>, nLines: nat, num: Numerics, m: Matrix, cols: nat,
                          departure: Option<Tensor3>, macroturbulence: real, fillingFactor: real, stray: real,
                          returnRF: bool, cartesian: bool)
    requires IsShape(m, |m|, cols) && SqrtNonNegative(num)
    ensures Synthesized(engine, grid, psf, nLines, num, m, cols, departure, macroturbulence, fillingFactor, stray, returnRF, cartesian).Err?
      <==> (cols == 7 && |m| == 0) || (cartesian && cols < 7)
  {
  }

  /** Omitting the departure coefficients is passing all ones of shape (2, nLines, number of depths). */
  lemma DepartureDefaultsToOnes(engine: Engine, grid: string, psf: Option<Psf>, nLines: nat, num: Numerics, m: Matrix, cols: nat,
                                macroturbulence: real, fillingFactor: real, stray: real, returnRF: bool, cartesian: bool)
    requires IsShape(m, |m|, cols) && SqrtNonNegative(num)
    ensures Synthesized(engine, grid, psf, nLines, num, m, cols, None, macroturbulence, fillingFactor, stray, returnRF, cartesian)
      == Synthesized(engine, grid, psf, nLines, num, m, cols, Some(DefaultDeparture(nLines, |m|)),
                   macroturbulence, fillingFactor, stray, returnRF, cartesian)
  {
  }

  /** With no keyword arguments (`stokes, rf = SIR.synthesize(out)`), the response functions come back, and only a 7-column model without rows fails. */
  lemma DefaultCallReturnsResponse(engine: Engine, grid: string, psf: Option<Psf>, nLines: nat, num: Numerics, m: Matrix, cols: nat)
    requires IsShape(m, |m|, cols) && SqrtNonNegative(num)
    ensures var r := Synthesized(engine, grid, psf, nLines, num, m, cols);
      && (r.Err? <==> cols == 7 && |m| == 0)
      && (r.Ok? ==> r.value.StokesAndResponse?)
  {
  }

  /**
   * For an engine with the documented shapes, a synthesis on the grid the engine read returns Stokes of
   * (5, init(grid)) and, with `returnRF`, response functions over all depths.
   */
  lemma SpectraShapes(engine: Engine, grid: string, psf: Option<Psf>, nLines: nat, num: Numerics, m: Matrix, cols: nat,
                      departure: Option<Tensor3>, macroturbulence: real, fillingFactor: real, stray: real,
                      returnRF: bool, cartesian: bool)
    requires IsShape(m, |m|, cols) && SqrtNonNegative(num) && Conforms(engine)
    ensures var r := Synthesized(engine, grid, psf, nLines, num, m, cols, departure, macroturbulence, fillingFactor, stray, returnRF, cartesian);
      r.Ok? ==> SpectraConform(r.value, engine.init(grid), |m|)
  {
    var r := Synthesized(engine, grid, psf, nLines, num, m, cols, departure, macroturbulence, fillingFactor, stray, returnRF, cartesian);
    if r.Ok? {
      var normalized := Normalize(num, m, cols, cartesian).value;
      assert |normalized| == |m|;
      var d := departure.GetOr(DefaultDeparture(nLines, |m|));
      if returnRF {
        assert ResponseConforms(engine.synthRF(grid, normalized, d, macroturbulence, fillingFactor, stray, psf), engine.init(grid), |normalized|);
      } else {
        assert IsShape(engine.synth(grid, normalized, d, macroturbulence, fillingFactor, stray, psf), 5, engine.init(grid));
      }
    }
  }
}
