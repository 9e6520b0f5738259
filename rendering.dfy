/** write_pov (rendering.py:1-286): an older copy of create_device that
    builds the same device text, dimensions and coating dimensions. Its only
    difference in the text is that each coating comment carries the
    coating's number. */
module Rendering {
  import opened Wrappers
  import opened Text
  import opened UtilPov
  import opened UtilShapesDevice
  import opened UtilShapesCreate

  method WritePov(dev: DeviceRec, numX: int, numY: int, coatings: seq<Coating>,
                  coatColors: map<string, ColorList>, coatIors: map<string, real>, useDefault: bool,
                  customs: seq<ColorList>, useFinish: string, customFinish: string, addLines: bool)
    returns (r: Result<(Text, Dims, Dims)>, ghost logs: seq<LayerLog>, ghost cursors: seq<nat>,
             ghost clogs: seq<CoatLog>, ghost sub: seq<real>)
    modifies (set o | o in customs), coatColors.Values
    ensures !useDefault && customs == [] && dev.numLayers > 0 ==> r == Err(NoTermination)
    ensures r.Ok? ==> Built(dev, numX, numY, coatings, coatColors.Keys, old(Rgbs(coatColors)), coatIors,
                            useDefault, useFinish, customFinish, true, r.value, logs, cursors, clogs, sub, addLines)
  {
    r, logs, cursors, clogs, sub := BuildDevice(dev, numX, numY, coatings, coatColors, coatIors, useDefault,
                                                customs, useFinish, customFinish, addLines, true);
  }

  /** The two copies differ only in the coating comments: without coatings
      they return the same text and dimensions from the same logs. */
  lemma SameWithoutCoatings(dev: DeviceRec, numX: int, numY: int, coatKeys: set<string>,
                            coatRgb: map<string, seq<real>>, coatIors: map<string, real>, useDefault: bool, useFinish: string,
                            customFinish: string, out: (Text, Dims, Dims), logs: seq<LayerLog>,
                            cursors: seq<nat>, clogs: seq<CoatLog>, sub: seq<real>, addLines: bool)
    ensures Built(dev, numX, numY, [], coatKeys, coatRgb, coatIors, useDefault, useFinish, customFinish, true, out,
                  logs, cursors, clogs, sub, addLines)
        <==> Built(dev, numX, numY, [], coatKeys, coatRgb, coatIors, useDefault, useFinish, customFinish, false, out,
                   logs, cursors, clogs, sub, addLines)
  {
    var full := FullLattice(dev.lattice, numX, numY);
    CoatsTextEmpty(full, coatIors, true, clogs);
    CoatsTextEmpty(full, coatIors, false, clogs);
  }
}
