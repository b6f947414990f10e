/** The older procedural wrapper pySIR.py: the same native engine, driven by free functions. */
module PySIR {
  import opened Wrappers
  import opened Arrays
  import opened LineGrid
  import opened Normalizer
  import opened Synthesis

  /** The native engine as pySIR.py calls it: no departure coefficients; the grid is the one `init` last read. */
  datatype LegacyEngine = LegacyEngine(
    init: string -> nat,
    synth: (string, Matrix, real, real, real, Option<Psf>) -> Matrix,
    synthRF: (string, Matrix, real, real, real, Option<Psf>) -> (Matrix, ResponseFunctions))

  /** The shapes pySIR.py documents, as in `Synthesis.Conforms`: on a grid of `init(grid)` wavelengths, Stokes (5, nLambda) and the response functions of `ResponseConforms`. */
  ghost predicate LegacyConforms(engine: LegacyEngine) {
    && (forall g, m, v, f, s, p :: IsShape(engine.synth(g, m, v, f, s, p), 5, engine.init(g)))
    && (forall g, m, v, f, s, p :: ResponseConforms(engine.synthRF(g, m, v, f, s, p), engine.init(g), |m|))
  }

  /** `initializeSIR`: writes the grid file in the legacy layout and returns the engine's wavelength count for it. */
  method InitializeSIR(groups: seq<LineGroup>, engine: LegacyEngine, fmt: real -> string) returns (nLambda: nat, gridFile: string)
    ensures gridFile == GridText(groups, Legacy, fmt)
    ensures nLambda == engine.init(gridFile)
  {
    gridFile := WriteGridFile(groups, Legacy, fmt);
    nLambda := engine.init(gridFile);
  }

  /**
   * `synthesizeSIR` on values, with its keyword defaults: a 7-column model gains its electron-pressure
   * column; the engine call, on the grid `init` read, is chosen by `returnRF`.
   */
  function LegacySynthesis(engine: LegacyEngine, grid: string, psf: Option<Psf>, m: Matrix, cols: nat,
                           macroturbulence: real := 0.0, fillingFactor: real := 1.0, stray: real := 0.0,
                           returnRF: bool := true): (r: Result<Spectra, Failure>)
    requires IsShape(m, |m|, cols)
    ensures r.Err? ==> r.error == IndexError
  {
    var full :- WithAllColumns(m, cols);
    if returnRF then
      var out := engine.synthRF(grid, full, macroturbulence, fillingFactor, stray, psf);
      Ok(StokesAndResponse(out.0, out.1))
    else
      Ok(StokesOnly(engine.synth(grid, full, macroturbulence, fillingFactor, stray, psf)))
  }

  /**
   * `synthesizeSIR`. The 7-column case works on a new array, so the caller's model is never written;
   * `psf` is the PSF last handed to the engine through `setPSF`.
   */
  method SynthesizeSIR(engine: LegacyEngine, grid: string, psf: Option<Psf>, model: array2<real>,
                       macroturbulence: real := 0.0, fillingFactor: real := 1.0, stray: real := 0.0,
                       returnRF: bool := true) returns (r: Result<Spectra, Failure>)
    ensures r == LegacySynthesis(engine, grid, psf, Snapshot(model), model.Length1, macroturbulence, fillingFactor, stray, returnRF)
    ensures LegacyConforms(engine) && r.Ok? ==> SpectraConform(r.value, engine.init(grid), model.Length0)
  {
    if LegacyConforms(engine) {
      LegacySpectraShapes(engine, grid, psf, Snapshot(model), model.Length1, macroturbulence, fillingFactor, stray, returnRF);
    }
    var full := model;
    if model.Length1 == 7 {
      if model.Length0 == 0 {
        return Err(IndexError);
      }
      full := InsertElectronPressure(model);
    }
    var rows := Snapshot(full);
    if returnRF {
      var out := engine.synthRF(grid, rows, macroturbulence, fillingFactor, stray, psf);
      r := Ok(StokesAndResponse(out.0, out.1));
    } else {
      r := Ok(StokesOnly(engine.synth(grid, rows, macroturbulence, fillingFactor, stray, psf)));
    }
  }

  /** A model of any width but 7 reaches the engine exactly as given, with no column inserted and no value changed. */
  lemma OtherWidthsReachEngine(engine: LegacyEngine, grid: string, psf: Option<Psf>, m: Matrix, cols: nat, macroturbulence: real,
                               fillingFactor: real, stray: real, returnRF: bool)
    requires IsShape(m, |m|, cols) && cols != 7
    ensures LegacySynthesis(engine, grid, psf, m, cols, macroturbulence, fillingFactor, stray, returnRF)
      == if returnRF then
           var out := engine.synthRF(grid, m, macroturbulence, fillingFactor, stray, psf);
           Ok(StokesAndResponse(out.0, out.1))
         else Ok(StokesOnly(engine.synth(grid, m, macroturbulence, fillingFactor, stray, psf)))
  {
    OtherWidthsPassThrough(m, cols);
  }

  /** A 7-column model reaches either entry point with the electron-pressure column, or fails when it has no rows. */
  lemma SevenColumnsReachEngine(engine: LegacyEngine, grid: string, psf: Option<Psf>, m: Matrix, macroturbulence: real,
                                fillingFactor: real, stray: real, returnRF: bool)
    requires IsShape(m, |m|, 7)
    ensures var r := LegacySynthesis(engine, grid, psf, m, 7, macroturbulence, fillingFactor, stray, returnRF);
      && (|m| == 0 <==> r == Err(IndexError))
      && (|m| >= 1 && !returnRF ==>
            r == Ok(StokesOnly(engine.synth(grid, WithElectronPressure(m), macroturbulence, fillingFactor, stray, psf))))
      && (|m| >= 1 && returnRF ==>
            var out := engine.synthRF(grid, WithElectronPressure(m), macroturbulence, fillingFactor, stray, psf);
            r == Ok(StokesAndResponse(out.0, out.1)))
  {
  }

  /** The result is tagged by `returnRF`, and only a 7-column model without rows fails. */
  lemma LegacyResultFollowsFlag(engine: LegacyEngine, grid: string, psf: Option<Psf>, m: Matrix, cols: nat, macroturbulence: real,
                                fillingFactor: real, stray: real, returnRF: bool)
    requires IsShape(m, |m|, cols)
    ensures var r := LegacySynthesis(engine, grid, psf, m, cols, macroturbulence, fillingFactor, stray, returnRF);
      && (r.Err? <==> cols == 7 && |m| == 0)
      && (r.Ok? ==> (r.value.StokesAndResponse? <==> returnRF))
  {
  }

  /** With no keyword arguments (`stokes, rf = synthesizeSIR(model)`), the response functions come back, and only a 7-column model without rows fails. */
  lemma LegacyDefaultCallReturnsResponse(engine: LegacyEngine, grid: string, psf: Option<Psf>, m: Matrix, cols: nat)
    requires IsShape(m, |m|, cols)
    ensures var r := LegacySynthesis(engine, grid, psf, m, cols);
      && (r.Err? <==> cols == 7 && |m| == 0)
      && (r.Ok? ==> r.value.StokesAndResponse?)
  {
  }

  /**
   * For an engine with the documented shapes, a synthesis on the grid the engine read returns Stokes of
   * (5, init(grid)) and, with `returnRF`, response functions over all depths of the model.
   */
  lemma LegacySpectraShapes(engine: LegacyEngine, grid: string, psf: Option<Psf>, m: Matrix, cols: nat,
                            macroturbulence: real, fillingFactor: real, stray: real, returnRF: bool)
    requires IsShape(m, |m|, cols) && LegacyConforms(engine)
    ensures var r := LegacySynthesis(engine, grid, psf, m, cols, macroturbulence, fillingFactor, stray, returnRF);
      r.Ok? ==> SpectraConform(r.value, engine.init(grid), |m|)
  {
    var r := LegacySynthesis(engine, grid, psf, m, cols, macroturbulence, fillingFactor, stray, returnRF);
    if r.Ok? {
      var full := WithAllColumns(m, cols).value;
      assert |full| == |m|;
      if returnRF {
        assert ResponseConforms(engine.synthRF(grid, full, macroturbulence, fillingFactor, stray, psf), engine.init(grid), |full|);
      } else {
        assert IsShape(engine.synth(grid, full, macroturbulence, fillingFactor, stray, psf), 5, engine.init(grid));
      }
    }
  }
}
