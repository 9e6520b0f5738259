/** create_device (util_shapes.py:1264-1537) as a whole: the custom-colour
    extension, the unit cell of layers, its replication, the coating slabs on
    top, the substrate slab below and the dimensions handed to the camera. */
module UtilShapesCreate {
  import opened Wrappers
  import opened Text
  import opened UtilPov
  import opened UtilShapes
  import opened UtilShapesLayer
  import opened UtilShapesDevice

  /** A dimensions list [x, y, z]. */
  type Dims = (real, real, real)

  // ---------------------------------------------------------------------
  // Slab geometry (util_shapes.py:1474-1491)
  // ---------------------------------------------------------------------

  /** `temp_vecs`: the lattice vectors with their x components scaled by the
      number of copies along x and their y components by the number along y. */
  function FullLattice(lv: Lattice, numX: int, numY: int): Lattice
  {
    Lattice(XY(Times(numX, lv.a.x), Times(numY, lv.a.y)), XY(Times(numX, lv.b.x), Times(numY, lv.b.y)))
  }

  /** The x/y shift of the coatings and the substrate: half a cell along a
      direction with an even number of copies, none along an odd one. */
  function SlabOffset(lv: Lattice, numX: int, numY: int): (p: XY)
    ensures numX % 2 != 0 ==> p.x == 0.0
    ensures numY % 2 != 0 ==> p.y == 0.0
  {
    XY(if numX % 2 == 0 then 0.5 * lv.a.x - 0.5 * lv.b.x else 0.0,
       if numY % 2 == 0 then 0.5 * lv.b.y - 0.5 * lv.a.y else 0.0)
  }

  /** The slab of the given type over the full lattice, placed by `d`. */
  function Slab(full: Lattice, t: real, d: Dims, layerType: string): Text
  {
    SlabText(t, Shift(SlabCorners(full), SlabHalfwidth(full)), SlabTranslate(t, d.0, d.1, d.2, layerType))
  }

  // ---------------------------------------------------------------------
  // The coatings (util_shapes.py:1493-1507)
  // ---------------------------------------------------------------------

  /** `coating_dims` before coating k: each coating keeps the footprint at
      least 0 and raises the height by its thickness. */
  function CoatDims(d0: Dims, coatings: seq<Coating>, k: nat): Dims
    requires k <= |coatings|
  {
    if k == 0 then d0
    else
      var d := CoatDims(d0, coatings, k - 1);
      (Max(0.0, d.0), Max(0.0, d.1), d.2 + coatings[k - 1].thickness)
  }

  /** The comment before coating j. util_shapes.py writes the placeholder
      `{j+1}` literally, since the string is not an f-string; rendering.py
      formats the coating's number. */
  function CoatComment(j: nat, numbered: bool): Text
  {
    if numbered then [Lit("// Coating layer "), Int(j + 1), Lit("\n\t")]
    else [Lit("// Coating layer {j+1}\n\t")]
  }

  /** What a coating's pass records: the dims it was placed by and its
      colour as color_and_finish left it. */
  datatype CoatLog = CoatLog(d: Dims, col: seq<real>)

  /** A colour painted with the "translucent" finish: transmit 0.02, filter 0.5. */
  predicate Translucent(col: seq<real>)
  {
    |col| >= 5 && col[3] == 0.02 && col[4] == 0.50
  }

  /** Coating j's text: the comment, the slab and its translucent paint. */
  function CoatChunk(full: Lattice, co: Coating, j: nat, numbered: bool, ior: real, log: CoatLog): Text
  {
    if |log.col| >= 5 then
      CoatComment(j, numbered)
      + (Slab(full, co.thickness, log.d, "coating") + Pigment(log.col) + FinishBlock("translucent", ior, "")
         + [Lit("}\n\n\t")])
    else []
  }

  /** Coating j's text from its log. */
  function CoatChunks(full: Lattice, coatings: seq<Coating>, coatIors: map<string, real>, numbered: bool)
    : (nat, CoatLog) -> Text
  {
    (j: nat, log: CoatLog) =>
      if j < |coatings| && coatings[j].material in coatIors
      then CoatChunk(full, coatings[j], j, numbered, coatIors[coatings[j].material], log)
      else []
  }

  /** The coatings' text, one after another. */
  function CoatsText(full: Lattice, coatings: seq<Coating>, coatIors: map<string, real>, numbered: bool,
                     logs: seq<CoatLog>): Text
  {
    Stacked(CoatChunks(full, coatings, coatIors, numbered), logs)
  }

  /** Coating k was written from the log: its material has a colour and an
      index of refraction, it was placed by CoatDims, and it is painted with
      its material's colour in `coatRgb` under the "translucent" finish. */
  predicate CoatDone(coatings: seq<Coating>, k: nat, d0: Dims, coatRgb: map<string, seq<real>>,
                     coatIors: map<string, real>, log: CoatLog)
    requires k < |coatings|
  {
    && coatings[k].material in coatRgb && coatings[k].material in coatIors
    && log.d == CoatDims(d0, coatings, k)
    && log.col == Resolved(coatRgb[coatings[k].material], "translucent") && Translucent(log.col)
  }

  /** The first |logs| coatings were written from their logs. */
  predicate CoatsWritten(coatings: seq<Coating>, d0: Dims, coatRgb: map<string, seq<real>>,
                         coatIors: map<string, real>, logs: seq<CoatLog>)
    decreases |logs|
  {
    && |logs| <= |coatings|
    && (logs != [] ==>
          && CoatsWritten(coatings, d0, coatRgb, coatIors, logs[..|logs| - 1])
          && CoatDone(coatings, |logs| - 1, d0, coatRgb, coatIors, logs[|logs| - 1]))
  }

  /** What the coating loop keeps after |logs| coatings. */
  predicate CoatsSoFar(full: Lattice, coatings: seq<Coating>, d0: Dims, coatRgb: map<string, seq<real>>,
                       coatIors: map<string, real>, numbered: bool, logs: seq<CoatLog>, text: Text, d: Dims)
  {
    && CoatsWritten(coatings, d0, coatRgb, coatIors, logs)
    && text == CoatsText(full, coatings, coatIors, numbered, logs)
    && |logs| <= |coatings| && d == CoatDims(d0, coatings, |logs|)
  }

  /** How the coating loop can fail: `background` was never bound, a
      coating's material has no colour or no index of refraction, or its
      colour is too short. */
  predicate CoatFailure(coatings: seq<Coating>, coatKeys: set<string>, coatIors: map<string, real>,
                        background: Option<string>, e: Error)
  {
    || (e == NameError("background") && background.None? && coatings != [])
    || e == IndexError
    || (exists j :: 0 <= j < |coatings| && e == KeyError(coatings[j].material)
                   && (coatings[j].material !in coatKeys || coatings[j].material !in coatIors))
  }

  /** The coating loop. */
  method WriteCoatings(full: Lattice, coatings: seq<Coating>, cdims: array<real>,
                       defaults: map<string, ColorList>, background: Option<string>,
                       coatColors: map<string, ColorList>, coatIors: map<string, real>, numbered: bool,
                       ghost coatRgb: map<string, seq<real>>)
    returns (r: Result<Text>, ghost logs: seq<CoatLog>)
    requires cdims.Length == 3
    requires CoatColorsFrom(coatColors, coatRgb)
    modifies cdims, coatColors.Values
    ensures coatings == [] ==> r == Ok([])
    ensures coatings != [] && background.None? ==> r == Err(NameError("background"))
    ensures r.Err? ==> CoatFailure(coatings, coatColors.Keys, coatIors, background, r.error)
    ensures r.Ok? ==>
      && |logs| == |coatings|
      && CoatsSoFar(full, coatings, old((cdims[0], cdims[1], cdims[2])), coatRgb, coatIors, numbered,
                    logs, r.value, (cdims[0], cdims[1], cdims[2]))
  {
    ghost var d0 := (cdims[0], cdims[1], cdims[2]);
    var text: Text := [];
    logs := [];
    for j := 0 to |coatings|
      invariant |logs| == j
      invariant background.None? ==> j == 0
      invariant CoatColorsFrom(coatColors, coatRgb)
      invariant CoatsSoFar(full, coatings, d0, coatRgb, coatIors, numbered, logs, text,
                           (cdims[0], cdims[1], cdims[2]))
    {
      var step, logs' := CoatPass(full, coatings, j, cdims, defaults, background, coatColors, coatIors,
                                  numbered, d0, text, logs, coatRgb);
      if step.Err? {
        return Err(step.error), logs;
      }
      text, logs := step.value, logs';
    }
    r := Ok(text);
  }

  /** One pass of the coating loop: coating j's comment, slab and paint are
      appended and coating_dims rises by its thickness. */
  method CoatPass(full: Lattice, coatings: seq<Coating>, j: nat, cdims: array<real>,
                  defaults: map<string, ColorList>, background: Option<string>,
                  coatColors: map<string, ColorList>, coatIors: map<string, real>, numbered: bool,
                  ghost d0: Dims, text: Text, ghost logs: seq<CoatLog>, ghost coatRgb: map<string, seq<real>>)
    returns (r: Result<Text>, ghost logs': seq<CoatLog>)
    requires cdims.Length == 3 && j < |coatings| && |logs| == j
    requires CoatColorsFrom(coatColors, coatRgb)
    requires CoatsSoFar(full, coatings, d0, coatRgb, coatIors, numbered, logs, text,
                        (cdims[0], cdims[1], cdims[2]))
    modifies cdims, coatColors.Values
    ensures background.None? ==> r == Err(NameError("background"))
    ensures r.Err? ==> CoatFailure(coatings, coatColors.Keys, coatIors, background, r.error)
    ensures r.Ok? ==>
      && |logs'| == j + 1 && CoatColorsFrom(coatColors, coatRgb)
      && CoatsSoFar(full, coatings, d0, coatRgb, coatIors, numbered, logs', r.value,
                    (cdims[0], cdims[1], cdims[2]))
  {
    var co := coatings[j];
    var comment := CoatComment(j, numbered);
    ghost var d := (cdims[0], cdims[1], cdims[2]);
    var slab, _ := AddSlab(full, co.thickness, cdims, "coating");
    // The arguments of color_and_finish are evaluated in order: the
    // material `background`, then the colour, then the index of refraction.
    if background.None? {
      return Err(NameError("background")), logs;
    }
    if co.material !in coatColors {
      return Err(KeyError(co.material)), logs;
    }
    if co.material !in coatIors {
      return Err(KeyError(co.material)), logs;
    }
    var ior := coatIors[co.material];
    var painted, col := PaintTranslucent(slab, defaults, background.value, coatColors, co.material, ior, coatRgb);
    if painted.Err? {
      return Err(painted.error), logs;
    }
    UpdateDeviceDims(cdims, 0.0, 0.0, co.thickness);
    r := Ok(text + (comment + painted.value));
    logs' := logs + [CoatLog(d, col)];
    ghost var x, y, z := cdims[0], cdims[1], cdims[2];
    CoatLogged(full, coatings, d0, coatRgb, coatIors, numbered, logs, text, d, (x, y, z), slab, painted.value,
               col);
  }

  /** The loop's record extended by the coating CoatPass has just painted
      with `col`, its material's colour made translucent. */
  lemma CoatLogged(full: Lattice, coatings: seq<Coating>, d0: Dims, coatRgb: map<string, seq<real>>,
                   coatIors: map<string, real>, numbered: bool, logs: seq<CoatLog>, text: Text, d: Dims,
                   d': Dims, slab: Text, painted: Text, col: seq<real>)
    requires |logs| < |coatings|
    requires CoatsSoFar(full, coatings, d0, coatRgb, coatIors, numbered, logs, text, d)
    requires coatings[|logs|].material in coatRgb && coatings[|logs|].material in coatIors
    requires col == Resolved(coatRgb[coatings[|logs|].material], "translucent") && |col| >= 5
    requires slab == Slab(full, coatings[|logs|].thickness, d, "coating")
    requires painted == slab + Pigment(col)
                        + FinishBlock("translucent", coatIors[coatings[|logs|].material], "") + [Lit("}\n\n\t")]
    requires d'.0 == Max(0.0, d.0) && d'.1 == Max(0.0, d.1) && d'.2 == d.2 + coatings[|logs|].thickness
    ensures CoatsSoFar(full, coatings, d0, coatRgb, coatIors, numbered, logs + [CoatLog(d, col)],
                       text + (CoatComment(|logs|, numbered) + painted), d')
  {
    var j, log := |logs|, CoatLog(d, col);
    TranslucentResolved(coatRgb[coatings[j].material]);
    CoatChunkIs(full, coatings, coatIors, numbered, j, log, slab, painted, coatIors[coatings[j].material]);
    CoatsStep(full, coatings, d0, coatRgb, coatIors, numbered, logs, text, log, CoatComment(j, numbered) + painted,
              d, d');
  }

  /** The comment and the painted slab make coating j's chunk. */
  lemma CoatChunkIs(full: Lattice, coatings: seq<Coating>, coatIors: map<string, real>, numbered: bool,
                    j: nat, log: CoatLog, slab: Text, painted: Text, ior: real)
    requires j < |coatings| && coatings[j].material in coatIors && ior == coatIors[coatings[j].material]
    requires |log.col| >= 5
    requires slab == Slab(full, coatings[j].thickness, log.d, "coating")
    requires painted == slab + Pigment(log.col) + FinishBlock("translucent", ior, "") + [Lit("}\n\n\t")]
    ensures CoatComment(j, numbered) + painted == CoatChunks(full, coatings, coatIors, numbered)(j, log)
  {
  }

  /** The loop's record extended by one coating. */
  lemma CoatsStep(full: Lattice, coatings: seq<Coating>, d0: Dims, coatRgb: map<string, seq<real>>,
                  coatIors: map<string, real>, numbered: bool, logs: seq<CoatLog>, text: Text, log: CoatLog,
                  chunk: Text, d: Dims, d': Dims)
    requires |logs| < |coatings|
    requires CoatsSoFar(full, coatings, d0, coatRgb, coatIors, numbered, logs, text, d)
    requires CoatDone(coatings, |logs|, d0, coatRgb, coatIors, log)
    requires chunk == CoatChunks(full, coatings, coatIors, numbered)(|logs|, log)
    requires d'.0 == Max(0.0, d.0) && d'.1 == Max(0.0, d.1) && d'.2 == d.2 + coatings[|logs|].thickness
    ensures CoatsSoFar(full, coatings, d0, coatRgb, coatIors, numbered, logs + [log], text + chunk, d')
  {
    CoatsExtend(coatings, d0, coatRgb, coatIors, logs, log);
    StackedSnoc(CoatChunks(full, coatings, coatIors, numbered), logs, log);
    CoatDimsStep(d0, coatings, |logs|, d, d');
  }

  lemma CoatDimsStep(d0: Dims, coatings: seq<Coating>, k: nat, d: Dims, d': Dims)
    requires k < |coatings| && d == CoatDims(d0, coatings, k)
    requires d'.0 == Max(0.0, d.0) && d'.1 == Max(0.0, d.1) && d'.2 == d.2 + coatings[k].thickness
    ensures d' == CoatDims(d0, coatings, k + 1)
  {
  }

  /** The "translucent" finish sets transmit and filter. */
  lemma TranslucentResolved(c: seq<real>)
    ensures |Resolved(c, "translucent")| >= 5 ==> Translucent(Resolved(c, "translucent"))
  {
  }

  lemma CoatsExtend(coatings: seq<Coating>, d0: Dims, coatRgb: map<string, seq<real>>, coatIors: map<string, real>,
                    logs: seq<CoatLog>, log: CoatLog)
    requires |logs| < |coatings|
    requires CoatsWritten(coatings, d0, coatRgb, coatIors, logs)
    requires CoatDone(coatings, |logs|, d0, coatRgb, coatIors, log)
    ensures CoatsWritten(coatings, d0, coatRgb, coatIors, logs + [log])
  {
    assert (logs + [log])[..|logs|] == logs;
  }

  // ---------------------------------------------------------------------
  // The whole device (util_shapes.py:1341-1537)
  // ---------------------------------------------------------------------

  /** The default colour lists create_device builds afresh on every call. */
  const SubstDefault: seq<real> := [0.15, 0.15, 0.15, 0.0, 0.0]
  const SiDefault: seq<real> := [0.2, 0.2, 0.2, 0.0, 0.0]
  const SiO2Default: seq<real> := [0.99, 0.99, 0.96, 0.0, 0.1]

  /** The default colour of each material, as `default_color_dict` holds it. */
  const DefaultRgb: map<string, seq<real>> := map["subst" := SubstDefault, "Si" := SiDefault, "SiO2" := SiO2Default]

  /** color_and_finish's default `custom_color`, passed along with the
      substrate although default colours are used there. */
  const UnusedCustom: seq<real> := [0.0, 0.6667, 0.667, 0.0, 0.0]

  /** `min(5, n)`: the most copies the camera cap counts along one direction. */
  function CapCopies(n: int): (m: int)
    ensures m <= 5 && m <= n && (m == 5 || m == n)
  {
    if n < 5 then n else 5
  }

  /** The substrate thickness: at least 1. */
  function SubThickness(dev: DeviceRec): (t: real)
    ensures t >= 1.0 && t >= dev.subThickness && (t == 1.0 || t == dev.subThickness)
  {
    Max(1.0, dev.subThickness)
  }

  /** The device text before the substrate is painted: the unit cell of
      layers, the merge of its copies and the coatings, and the substrate
      slab placed by `sd`. */
  function DeviceBody(layers: Text, grid: Text, coats: Text, full: Lattice, ts: real, sd: Dims): Text
  {
    [Lit("#declare UnitCell = ")] + [Lit("merge\n\t{\n\t")] + layers + [Lit("}\n\n")]
    + [Lit("merge\n\t{ \n\t")] + grid + coats + [Lit("}\n\n")] + [Lit("// Substrate\n\t")]
    + Slab(full, ts, sd, "substrate")
  }

  /** The whole text: the body with the substrate's dull paint appended. */
  function DeviceText(body: Text, sub: seq<real>): Text
    requires |sub| >= 5
  {
    body + Pigment(sub) + FinishBlock("dull", 1.0, "") + [Lit("}\n\n\t")]
  }

  /** `device_dims` as returned: the footprint p of the unit cell, widened
      by the count of copies the cap allows, and the height of the layers
      and the substrate, counted twice by the last update. */
  function DeviceDims(p: XY, height: real, ts: real, numX: int, numY: int): Dims
  {
    (Max(Times(CapCopies(numX), p.x), p.x), Max(Times(CapCopies(numY), p.y), p.y),
     (height + ts) + (height + ts))
  }

  /** What create_device returns, in terms of the logs of its loops: the
      text built from the layer, grid and coating texts and the substrate
      colour `sub`; the device dimensions; the coating dimensions. */
  predicate Built(dev: DeviceRec, numX: int, numY: int, coatings: seq<Coating>, coatKeys: set<string>,
                  coatRgb: map<string, seq<real>>, coatIors: map<string, real>, useDefault: bool, useFinish: string, customFinish: string,
                  numbered: bool, out: (Text, Dims, Dims), logs: seq<LayerLog>, cursors: seq<nat>,
                  clogs: seq<CoatLog>, sub: seq<real>, addLines: bool)
  {
    var lv := dev.lattice;
    var full := FullLattice(lv, numX, numY);
    var off := SlabOffset(lv, numX, numY);
    var height := StackHeight(dev, dev.numLayers);
    && |logs| == dev.numLayers
    && LayersWritten(dev, 0.0, coatKeys, coatIors, useDefault, logs, cursors)
    && coatRgb.Keys == coatKeys
    && LayersLogged(dev, coatRgb, logs, addLines)
    && (useDefault ==> DefaultsLogged(logs, DefaultRgb, useFinish))
    && |clogs| == |coatings|
    && CoatsWritten(coatings, (off.x, off.y, 0.0), coatRgb, coatIors, clogs)
    && |sub| >= 5
    && out.0 == DeviceText(DeviceBody(LayersText(dev, lv, coatKeys, coatIors, useFinish, customFinish, logs),
                                      Cells(GridShifts(lv, Adj(numX), Adj(numY), Passes(numX), Passes(numY))),
                                      CoatsText(full, coatings, coatIors, numbered, clogs),
                                      full, SubThickness(dev), (off.x, off.y, height)), sub)
    && out.1 == DeviceDims(Footprint(dev, XY(0.0, 0.0), logs), height, SubThickness(dev),
                           numX, numY)
    && out.2 == CoatDims((off.x, off.y, 0.0), coatings, |coatings|)
  }

  /** create_device with the coating comments as util_shapes.py writes them. */
  method CreateDevice(dev: DeviceRec, numX: int, numY: int, coatings: seq<Coating>,
                      coatColors: map<string, ColorList>, coatIors: map<string, real>, useDefault: bool,
                      customs: seq<ColorList>, useFinish: string, customFinish: string, addLines: bool)
    returns (r: Result<(Text, Dims, Dims)>, ghost logs: seq<LayerLog>, ghost cursors: seq<nat>,
             ghost clogs: seq<CoatLog>, ghost sub: seq<real>)
    modifies (set o | o in customs), coatColors.Values
    ensures !useDefault && customs == [] && dev.numLayers > 0 ==> r == Err(NoTermination)
    ensures r.Ok? ==> Built(dev, numX, numY, coatings, coatColors.Keys, old(Rgbs(coatColors)), coatIors,
                            useDefault, useFinish, customFinish, false, r.value, logs, cursors, clogs, sub, addLines)
  {
    r, logs, cursors, clogs, sub := BuildDevice(dev, numX, numY, coatings, coatColors, coatIors, useDefault,
                                                customs, useFinish, customFinish, addLines, false);
  }

  /** create_device, and its copy write_pov in rendering.py, which differs
      only in numbering the coating comments. */
  method BuildDevice(dev: DeviceRec, numX: int, numY: int, coatings: seq<Coating>,
                     coatColors: map<string, ColorList>, coatIors: map<string, real>, useDefault: bool,
                     customs: seq<ColorList>, useFinish: string, customFinish: string, addLines: bool,
                     numbered: bool)
    returns (r: Result<(Text, Dims, Dims)>, ghost logs: seq<LayerLog>, ghost cursors: seq<nat>,
             ghost clogs: seq<CoatLog>, ghost sub: seq<real>)
    modifies (set o | o in customs), coatColors.Values
    ensures !useDefault && customs == [] && dev.numLayers > 0 ==> r == Err(NoTermination)
    ensures r.Ok? ==> Built(dev, numX, numY, coatings, coatColors.Keys, old(Rgbs(coatColors)), coatIors,
                            useDefault, useFinish, customFinish, numbered, r.value, logs, cursors, clogs, sub, addLines)
  {
    ghost var coatRgb := Rgbs(coatColors);
    logs, cursors, clogs, sub := [], [], [], [];
    var palette := CustomPalette(customs, useDefault, dev.numLayers);
    if palette.Err? {
      r := Err(palette.error);
      return;
    }
    var colors := palette.value;
    var dims := new real[3] [0.0, 0.0, 0.0];
    var cdims := new real[3] [0.0, 0.0, 0.0];
    var device: Text := [Lit("#declare UnitCell = ")];
    device := device + [Lit("merge\n\t{\n\t")];
    var defaults, layers;
    defaults, layers, logs, cursors := DefaultLayers(dev, dims, coatColors, coatIors, useDefault, colors, useFinish,
                                                     customFinish, addLines, coatRgb);
    if layers.Err? {
      r := Err(layers.error);
      return;
    }
    ghost var p := Footprint(dev, XY(0.0, 0.0), logs);
    FootprintGrows(dev, XY(0.0, 0.0), logs);
    r, clogs, sub := FinishDevice(dev, numX, numY, coatings, defaults, coatColors, coatIors, numbered, dims, cdims,
                                  device + layers.value.0, layers.value.0, layers.value.1, p, coatRgb);
  }

  /** The layer loop of create_device over a fresh `default_color_dict`:
      with the default colours every logged feature is painted in its
      material's default colour, resolved with its finish. */
  method DefaultLayers(dev: DeviceRec, dims: array<real>, coatColors: map<string, ColorList>,
                       coatIors: map<string, real>, useDefault: bool, colors: seq<ColorList>, useFinish: string,
                       customFinish: string, addLines: bool, ghost coatRgb: map<string, seq<real>>)
    returns (defaults: map<string, ColorList>, r: Result<(Text, Option<string>)>, ghost logs: seq<LayerLog>,
             ghost cursors: seq<nat>)
    requires dims.Length == 3
    requires CoatColorsFrom(coatColors, coatRgb)
    modifies dims, (set o | o in colors), coatColors.Values
    ensures "subst" in defaults && fresh(defaults["subst"])
    ensures r.Ok? ==>
      && |logs| == dev.numLayers
      && LayersWritten(dev, old(dims[2]), coatColors.Keys, coatIors, useDefault, logs, cursors)
      && LayersLogged(dev, coatRgb, logs, addLines)
      && (useDefault ==> DefaultsLogged(logs, DefaultRgb, useFinish))
      && CoatColorsFrom(coatColors, coatRgb)
      && r.value.0 == LayersText(dev, dev.lattice, coatColors.Keys, coatIors, useFinish, customFinish, logs)
      && r.value.1 == LastBackground(dev, dev.numLayers)
      && dims[2] == old(dims[2]) + StackHeight(dev, dev.numLayers)
      && XY(dims[0], dims[1]) == Footprint(dev, XY(old(dims[0]), old(dims[1])), logs)
  {
    defaults := DefaultColors();
    assert OwnDefaults(defaults, coatColors) && DefaultsHold(defaults, DefaultRgb, useFinish);
    r, logs, cursors := WriteLayers(dev, dev.lattice, dims, defaults, coatColors, coatIors, useDefault, colors,
                                    useFinish, customFinish, addLines, coatRgb, DefaultRgb);
  }

  /** `default_color_dict`, built afresh. */
  method DefaultColors() returns (defaults: map<string, ColorList>)
    ensures defaults.Keys == {"subst", "Si", "SiO2"}
    ensures forall m :: m in defaults ==> fresh(defaults[m])
    ensures Unshared(defaults)
    ensures defaults["subst"].rgbft == SubstDefault && defaults["Si"].rgbft == SiDefault
    ensures defaults["SiO2"].rgbft == SiO2Default
  {
    var subst := new ColorList(SubstDefault);
    var si := new ColorList(SiDefault);
    var sio2 := new ColorList(SiO2Default);
    defaults := map["subst" := subst, "Si" := si, "SiO2" := sio2];
  }

  /** The custom colours the layers cycle through: the caller's list, grown
      to at least three per layer by whole copies when custom colours are
      used. */
  method CustomPalette(customs: seq<ColorList>, useDefault: bool, numLayers: nat)
    returns (r: Result<seq<ColorList>>)
    ensures r.Err? <==> !useDefault && customs == [] && numLayers > 0
    ensures r.Err? ==> r == Err(NoTermination)
    ensures useDefault ==> r == Ok(customs)
    ensures r.Ok? && !useDefault && customs != [] ==>
      && |r.value| >= 3 * numLayers && |r.value| % |customs| == 0
      && |r.value| >= |customs| && r.value[..|customs|] == customs
      && (forall i :: 0 <= i < |r.value| ==> r.value[i].rgbft == customs[Slot(i, |customs|)].rgbft)
    ensures r.Ok? ==> forall i :: 0 <= i < |r.value| ==> r.value[i] in customs || fresh(r.value[i])
  {
    if useDefault {
      return Ok(customs);
    }
    ghost var copies;
    r, copies := ExtendColors(customs, 3 * numLayers);
    if r.Ok? {
      var colors := r.value;
      forall i | 0 <= i < |colors|
        ensures colors[i] in customs || fresh(colors[i])
      {
        if i < |customs| {
          assert colors[i] == colors[..|customs|][i];
        }
      }
    }
  }

  /** The rest of create_device once the layers are written: the
      replication grid, the coatings, the substrate and the final dims. */
  method FinishDevice(dev: DeviceRec, numX: int, numY: int, coatings: seq<Coating>,
                      defaults: map<string, ColorList>, coatColors: map<string, ColorList>,
                      coatIors: map<string, real>, numbered: bool, dims: array<real>, cdims: array<real>,
                      device: Text, ghost layers: Text, background: Option<string>, ghost p: XY,
                      ghost coatRgb: map<string, seq<real>>)
    returns (r: Result<(Text, Dims, Dims)>, ghost clogs: seq<CoatLog>, ghost sub: seq<real>)
    requires dims.Length == 3 && cdims.Length == 3 && dims != cdims
    requires cdims[0] == 0.0 && cdims[1] == 0.0 && cdims[2] == 0.0
    requires dims[0] == p.x && dims[1] == p.y && dims[2] == StackHeight(dev, dev.numLayers)
    requires p.x >= 0.0 && p.y >= 0.0
    requires "subst" in defaults
    requires CoatColorsFrom(coatColors, coatRgb)
    requires device == [Lit("#declare UnitCell = ")] + [Lit("merge\n\t{\n\t")] + layers
    modifies dims, cdims, coatColors.Values, defaults["subst"]
    ensures r.Ok? ==>
      var lv := dev.lattice;
      var full := FullLattice(lv, numX, numY);
      var off := SlabOffset(lv, numX, numY);
      var height := StackHeight(dev, dev.numLayers);
      && |clogs| == |coatings|
      && CoatsWritten(coatings, (off.x, off.y, 0.0), coatRgb, coatIors, clogs)
      && |sub| >= 5
      && r.value.0 == DeviceText(DeviceBody(layers,
                                            Cells(GridShifts(lv, Adj(numX), Adj(numY), Passes(numX), Passes(numY))),
                                            CoatsText(full, coatings, coatIors, numbered, clogs),
                                            full, SubThickness(dev), (off.x, off.y, height)), sub)
      && r.value.1 == DeviceDims(p, height, SubThickness(dev), numX, numY)
      && r.value.2 == CoatDims((off.x, off.y, 0.0), coatings, |coatings|)
  {
    clogs, sub := [], [];
    var lv := dev.lattice;
    var full := FullLattice(lv, numX, numY);
    var off := SlabOffset(lv, numX, numY);
    var sd := (off.x, off.y, dims[2]);
    var covered;
    covered, clogs := ReplicateAndCoat(lv, numX, numY, coatings, defaults, coatColors, coatIors, numbered, cdims,
                                       device, background, coatRgb);
    if covered.Err? {
      r := Err(covered.error);
      return;
    }
    var cd := (cdims[0], cdims[1], cdims[2]);
    var ts := Max(1.0, dev.subThickness);
    var painted;
    painted, sub := PaintSubstrate(full, ts, sd, defaults, covered.value);
    if painted.Err? {
      r := Err(painted.error);
      return;
    }
    var dd := CapDims(dims, ts, numX, numY, p, sd.2);
    r := Ok((painted.value, dd, cd));
  }

  /** The last two dims updates: the substrate's thickness, then the cap
      on the copies the camera counts. */
  method CapDims(dims: array<real>, ts: real, numX: int, numY: int, ghost p: XY, ghost height: real)
    returns (dd: Dims)
    requires dims.Length == 3 && dims[0] == p.x && dims[1] == p.y && dims[2] == height
    requires p.x >= 0.0 && p.y >= 0.0
    modifies dims
    ensures dd == (dims[0], dims[1], dims[2]) && dd == DeviceDims(p, height, ts, numX, numY)
  {
    UpdateDeviceDims(dims, 0.0, 0.0, ts);
    UpdateDeviceDims(dims, Times(CapCopies(numX), dims[0]), Times(CapCopies(numY), dims[1]), dims[2]);
    dd := (dims[0], dims[1], dims[2]);
  }

  /** The unit cell's closing brace, the merge of its copies, the coatings
      and the start of the substrate. */
  method ReplicateAndCoat(lv: Lattice, numX: int, numY: int, coatings: seq<Coating>,
                          defaults: map<string, ColorList>, coatColors: map<string, ColorList>,
                          coatIors: map<string, real>, numbered: bool, cdims: array<real>, device: Text,
                          background: Option<string>, ghost coatRgb: map<string, seq<real>>)
    returns (r: Result<Text>, ghost clogs: seq<CoatLog>)
    requires cdims.Length == 3 && cdims[0] == 0.0 && cdims[1] == 0.0 && cdims[2] == 0.0
    requires CoatColorsFrom(coatColors, coatRgb)
    modifies cdims, coatColors.Values
    ensures r.Ok? ==>
      var full := FullLattice(lv, numX, numY);
      var off := SlabOffset(lv, numX, numY);
      && |clogs| == |coatings|
      && CoatsWritten(coatings, (off.x, off.y, 0.0), coatRgb, coatIors, clogs)
      && r.value == device + [Lit("}\n\n")] + [Lit("merge\n\t{ \n\t")]
                    + Cells(GridShifts(lv, Adj(numX), Adj(numY), Passes(numX), Passes(numY)))
                    + CoatsText(full, coatings, coatIors, numbered, clogs) + [Lit("}\n\n")]
                    + [Lit("// Substrate\n\t")]
      && (cdims[0], cdims[1], cdims[2]) == CoatDims((off.x, off.y, 0.0), coatings, |coatings|)
  {
    var text := device + [Lit("}\n\n")];
    var grid := WriteGrid(lv, numX, numY);
    text := text + [Lit("merge\n\t{ \n\t")] + grid;
    var full := FullLattice(lv, numX, numY);
    var off := SlabOffset(lv, numX, numY);
    cdims[0], cdims[1] := off.x, off.y;
    UpdateDeviceDims(cdims, cdims[0], cdims[1], 0.0);
    var coats;
    coats, clogs := WriteCoatings(full, coatings, cdims, defaults, background, coatColors, coatIors, numbered,
                                  coatRgb);
    if coats.Err? {
      return Err(coats.error), clogs;
    }
    r := Ok(text + coats.value + [Lit("}\n\n")] + [Lit("// Substrate\n\t")]);
  }

  /** The substrate slab, painted with the default "subst" colour and the
      dull finish together with everything before it. */
  method PaintSubstrate(full: Lattice, ts: real, sd: Dims, defaults: map<string, ColorList>, text: Text)
    returns (r: Result<Text>, ghost sub: seq<real>)
    requires "subst" in defaults
    modifies defaults["subst"]
    ensures defaults["subst"].rgbft == Resolved(old(defaults["subst"].rgbft), "dull")
    ensures r.Ok? <==> |defaults["subst"].rgbft| >= 5
    ensures r.Err? ==> r == Err(IndexError)
    ensures r.Ok? ==> sub == defaults["subst"].rgbft && r.value == DeviceText(text + Slab(full, ts, sd, "substrate"), sub)
  {
    var sdims := new real[3] [sd.0, sd.1, sd.2];
    var substrate, _ := AddSlab(full, ts, sdims, "substrate");
    var unused := new ColorList(UnusedCustom);
    r := ColorAndFinish(text + substrate, defaults, "subst", true, unused, 1.0, "dull", "");
    sub := defaults["subst"].rgbft;
  }

  // ---------------------------------------------------------------------
  // Properties of the coatings and the dimensions
  // ---------------------------------------------------------------------

  /** The total thickness of the coatings, bottom to top. */
  function Thickness(coatings: seq<Coating>): real
  {
    if coatings == [] then 0.0 else coatings[0].thickness + Thickness(coatings[1..])
  }

  lemma {:induction false} ThicknessSnoc(coatings: seq<Coating>, co: Coating)
    ensures Thickness(coatings + [co]) == Thickness(coatings) + co.thickness
  {
    if coatings != [] {
      assert (coatings + [co])[1..] == coatings[1..] + [co];
      ThicknessSnoc(coatings[1..], co);
    }
  }

  /** Each coating raises `coating_dims[2]` by exactly its thickness: before
      coating k the height is the start plus the thickness of the coatings
      below it. */
  lemma {:induction false} CoatHeight(d0: Dims, coatings: seq<Coating>, k: nat)
    requires k <= |coatings|
    ensures CoatDims(d0, coatings, k).2 == d0.2 + Thickness(coatings[..k])
  {
    if k > 0 {
      CoatHeight(d0, coatings, k - 1);
      assert coatings[..k] == coatings[..k - 1] + [coatings[k - 1]];
      ThicknessSnoc(coatings[..k - 1], coatings[k - 1]);
    }
  }

  /** The coatings leave the footprint part of `coating_dims` at its start
      clamped to at least 0: once clamped it never changes again. */
  lemma {:induction false} CoatFootprint(d0: Dims, coatings: seq<Coating>, k: nat)
    requires 0 < k <= |coatings|
    ensures CoatDims(d0, coatings, k).0 == Max(0.0, d0.0)
    ensures CoatDims(d0, coatings, k).1 == Max(0.0, d0.1)
  {
    if k > 1 {
      CoatFootprint(d0, coatings, k - 1);
    }
  }

  /** Without coatings there is no coating text. */
  lemma {:induction false} CoatsTextEmpty(full: Lattice, coatIors: map<string, real>, numbered: bool,
                                          logs: seq<CoatLog>)
    ensures CoatsText(full, [], coatIors, numbered, logs) == []
  {
    if logs != [] {
      CoatsTextEmpty(full, coatIors, numbered, logs[..|logs| - 1]);
    }
  }

  /** Every coating the loop wrote is placed by CoatDims, its material has a
      colour and an index of refraction, and it is painted with that
      material's colour in `coatRgb` under the "translucent" finish. */
  lemma {:induction false} CoatsAt(coatings: seq<Coating>, d0: Dims, coatRgb: map<string, seq<real>>,
                                   coatIors: map<string, real>, logs: seq<CoatLog>, k: nat)
    requires CoatsWritten(coatings, d0, coatRgb, coatIors, logs) && k < |logs|
    ensures k < |coatings| && CoatDone(coatings, k, d0, coatRgb, coatIors, logs[k])
    decreases |logs|
  {
    if k < |logs| - 1 {
      CoatsAt(coatings, d0, coatRgb, coatIors, logs[..|logs| - 1], k);
    }
  }

  /** Coating k sits on the one below it: its slab spans from the height
      before it to the height after it. */
  lemma CoatsFlush(full: Lattice, d0: Dims, coatings: seq<Coating>, k: nat)
    requires k < |coatings|
    ensures var d, t := CoatDims(d0, coatings, k), coatings[k].thickness;
            var tr := SlabTranslate(t, d.0, d.1, d.2, "coating");
            tr.2 - 0.5 * t == d.2 && tr.2 + 0.5 * t == CoatDims(d0, coatings, k + 1).2
  {
  }

  /** The substrate's top face lies at -height, right under the layers,
      which the layer loop stacks downwards from 0. */
  lemma SubstrateFlush(ts: real, sd: Dims)
    ensures SlabTranslate(ts, sd.0, sd.1, sd.2, "substrate").2 + 0.5 * ts == -sd.2
  {
  }

  /** The fresh "subst" colour comes through the dull finish unchanged. */
  lemma SubstrateDefault()
    ensures Resolved(SubstDefault, "dull") == SubstDefault
  {
  }

  lemma MulNonneg(a: real, b: real)
    requires a >= 0.0 && b >= 0.0
    ensures a * b >= 0.0
  {
  }

  lemma TimesMono(k: int, x: real)
    requires x >= 0.0
    ensures k >= 1 ==> Times(k, x) >= x
    ensures k <= 1 ==> Times(k, x) <= x
    ensures k <= 5 ==> Times(k, x) <= Times(5, x)
  {
    var kr := k as real;
    if k >= 1 {
      MulNonneg(kr - 1.0, x);
      assert (kr - 1.0) * x == kr * x - x;
    } else {
      MulNonneg(1.0 - kr, x);
      assert (1.0 - kr) * x == x - kr * x;
    }
    if k <= 5 {
      MulNonneg(5.0 - kr, x);
      assert (5.0 - kr) * x == 5.0 * x - kr * x;
    }
  }

  /** The camera cap: with a footprint at least 0, the returned x extent is
      min(5, n_x) times the unit cell's for n_x >= 1 and the unit cell's
      otherwise, never more than five times it; likewise y; and the height
      is doubled. */
  lemma DeviceDimsCap(p: XY, height: real, ts: real, numX: int, numY: int)
    requires p.x >= 0.0 && p.y >= 0.0
    ensures var dd := DeviceDims(p, height, ts, numX, numY);
      && (numX >= 1 ==> dd.0 == Times(CapCopies(numX), p.x))
      && (numX <= 1 ==> dd.0 == p.x)
      && p.x <= dd.0 <= Times(5, p.x)
      && (numY >= 1 ==> dd.1 == Times(CapCopies(numY), p.y))
      && (numY <= 1 ==> dd.1 == p.y)
      && p.y <= dd.1 <= Times(5, p.y)
      && dd.2 == 2.0 * (height + ts)
  {
    TimesMono(CapCopies(numX), p.x);
    TimesMono(CapCopies(numY), p.y);
    TimesMono(5, p.x);
    TimesMono(5, p.y);
  }
}
