/** create_device (util_shapes.py:1264-1537): the unit cell built layer by
    layer, replicated on an n_x by n_y grid, with the coating slabs on top and
    the substrate slab below. */
module UtilShapesDevice {
  import opened Wrappers
  import opened Text
  import opened UtilPov
  import opened UtilShapes
  import opened UtilShapesLayer

  /** One entry of `dev_layers`: the shape records (absent when the layer
      has no `shapes` key), the background material and the thickness. */
  datatype LayerRec = LayerRec(shapes: Option<seq<ShapeRec>>, background: string, thickness: real)

  /** The `statepoint` of a device document: `num_layers`, `dev_layers`
      keyed by the layer index, `lattice_vecs` and the substrate thickness. */
  datatype DeviceRec = DeviceRec(numLayers: nat, layers: map<nat, LayerRec>, lattice: Lattice,
                                 subThickness: real)

  /** One entry of `coating_layers`: its material and thickness. */
  datatype Coating = Coating(material: string, thickness: real)

  // ---------------------------------------------------------------------
  // The custom-colour extension (util_shapes.py:1358-1364)
  // ---------------------------------------------------------------------

  /** The `while` loop that appends whole copies of the original colour
      list until it holds at least `target` colours. Each copy appends the
      same deep-copied objects again, so the copies alias one another. The
      deep copy keeps its memo of the objects already copied: entries of the
      caller's list that are one list object become one shared copy. An
      empty list never grows, and the loop then never ends. */
  method ExtendColors(customs: seq<ColorList>, target: int)
    returns (r: Result<seq<ColorList>>, ghost copies: seq<ColorList>)
    ensures r.Err? <==> customs == [] && target > 0
    ensures r.Err? ==> r == Err(NoTermination)
    ensures r.Ok? && customs == [] ==> r.value == []
    ensures r.Ok? && customs != [] ==>
      var cs, n0 := r.value, |customs|;
      && |cs| >= n0 && cs[..n0] == customs
      && |cs| >= target && |cs| % n0 == 0 && (|cs| == n0 || |cs| < target + n0)
      && (forall i :: 0 <= i < |cs| ==> cs[i].rgbft == customs[Slot(i, n0)].rgbft)
      && |copies| == n0 && (forall j :: 0 <= j < n0 ==> fresh(copies[j]))
      && (forall i :: n0 <= i < |cs| ==> cs[i] == copies[Slot(i, n0)])
      && (forall j, j' :: 0 <= j < n0 && 0 <= j' < n0 ==>
            (copies[j] == copies[j'] <==> customs[j] == customs[j']))
  {
    var n0 := |customs|;
    copies := [];
    if n0 == 0 {
      if target > 0 {
        return Err(NoTermination), copies;
      }
      return Ok(customs), copies;
    }
    var orig: seq<ColorList> := [];
    for i := 0 to n0
      invariant |orig| == i
      invariant forall j :: 0 <= j < i ==> fresh(orig[j]) && orig[j].rgbft == customs[j].rgbft
      invariant forall j, j' :: 0 <= j < i && 0 <= j' < i ==>
        (orig[j] == orig[j'] <==> customs[j] == customs[j'])
    {
      var k := FirstAlias(customs, i);
      if k < i {
        orig := orig + [orig[k]];
      } else {
        var o := new ColorList(customs[i].rgbft);
        orig := orig + [o];
      }
    }
    var cs := customs;
    while |cs| < target
      invariant |cs| >= n0 && |cs| % n0 == 0 && cs[..n0] == customs
      invariant |cs| == n0 || |cs| < target + n0
      invariant forall i :: n0 <= i < |cs| ==> cs[i] == orig[Slot(i, n0)]
      invariant forall j :: 0 <= j < n0 ==> orig[j].rgbft == customs[j].rgbft
      decreases target - |cs|
    {
      ghost var before := cs;
      cs := AppendCopies(cs, orig);
      CopiesIndex(before, n0);
    }
    forall i | 0 <= i < |cs|
      ensures cs[i].rgbft == customs[Slot(i, n0)].rgbft
    {
      var k := Slot(i, n0);
      if i < n0 {
        ModUnique(i, n0, 0, i);
        assert cs[i] == customs[k];
      } else {
        assert cs[i] == orig[k] && orig[k].rgbft == customs[k].rgbft;
      }
    }
    r, copies := Ok(cs), orig;
  }

  /** The first position of the caller's list holding the same list object
      as position i: where the deep copy's memo finds its copy. */
  function FirstAlias(customs: seq<ColorList>, i: nat): (k: nat)
    requires i < |customs|
    ensures k <= i && customs[k] == customs[i]
    ensures forall j :: 0 <= j < k ==> customs[j] != customs[i]
  {
    FindFrom(customs, i, 0)
  }

  function FindFrom(customs: seq<ColorList>, i: nat, j: nat): (k: nat)
    requires j <= i < |customs|
    requires forall l :: 0 <= l < j ==> customs[l] != customs[i]
    ensures j <= k <= i && customs[k] == customs[i]
    ensures forall l :: 0 <= l < k ==> customs[l] != customs[i]
    decreases i - j
  {
    if customs[j] == customs[i] then j else FindFrom(customs, i, j + 1)
  }

  /** i mod n: the copy of the original list that position i repeats. */
  function Slot(i: nat, n: nat): (k: nat)
    requires n > 0
    ensures k < n
  {
    i % n
  }

  /** The inner `for` loop: one whole copy of `orig` appended. */
  method AppendCopies(cs: seq<ColorList>, orig: seq<ColorList>) returns (cs': seq<ColorList>)
    ensures cs' == cs + orig
  {
    cs' := cs;
    for i := 0 to |orig|
      invariant cs' == cs + orig[..i]
    {
      cs' := cs' + [orig[i]];
      assert orig[..i + 1] == orig[..i] + [orig[i]];
    }
    assert orig[..|orig|] == orig;
  }

  lemma CopiesIndex(before: seq<ColorList>, n0: nat)
    requires n0 > 0 && |before| % n0 == 0
    ensures (|before| + n0) % n0 == 0
    ensures forall i :: |before| <= i < |before| + n0 ==> Slot(i, n0) == i - |before|
  {
    forall i | |before| <= i < |before| + n0
      ensures Slot(i, n0) == i - |before|
    {
      ModShift(i - |before|, |before|, n0);
    }
    ModUnique(|before| + n0, n0, |before| / n0 + 1, 0);
  }

  lemma ModShift(d: int, m: int, n0: int)
    requires n0 > 0 && 0 <= d < n0 && m >= 0 && m % n0 == 0
    ensures (m + d) % n0 == d
  {
    ModUnique(m + d, n0, m / n0, d);
  }

  /** Euclidean division is unique. */
  lemma ModUnique(a: int, n: int, q: int, r: int)
    requires n > 0 && 0 <= r < n && a == q * n + r
    ensures a % n == r
  {
    var q', r' := a / n, a % n;
    assert a == q' * n + r';
    assert (q' - q) * n == r - r';
    MulBound(n, q' - q);
  }

  lemma MulSucc(k: nat, n: nat)
    ensures k * n + n == (k + 1) * n
  {
  }

  lemma MulMono(i: nat, k: nat, n: nat)
    requires i <= k
    ensures i * n <= k * n
  {
  }

  lemma MulBound(n: int, k: int)
    requires n > 0
    ensures k >= 1 ==> n * k >= n
    ensures k <= -1 ==> n * k <= -n
  {
  }

  // ---------------------------------------------------------------------
  // The replication grid (util_shapes.py:1452-1468)
  // ---------------------------------------------------------------------

  /** `int(0.5 * (n - (1 + (n - 1) % 2)))`: the number of copies sent back
      from the origin. The halved value is even, so the truncation is exact. */
  function Adj(n: int): int
  {
    (n - (1 + (n - 1) % 2)) / 2
  }

  /** The offset is (n - 1)/2 for an odd count and (n - 2)/2 for an even
      one; from one copy on, it picks a copy of the row, and the copies left
      of it are never more than those right of it. */
  lemma AdjCentres(n: int)
    ensures n % 2 == 1 ==> 2 * Adj(n) == n - 1
    ensures n % 2 == 0 ==> 2 * Adj(n) == n - 2
    ensures n >= 1 ==> 0 <= Adj(n) < n && Adj(n) <= n - 1 - Adj(n) <= Adj(n) + 1
  {
  }

  /** The number of passes of `for i in range(n)`. */
  function Passes(n: int): nat
  {
    if n < 0 then 0 else n
  }

  /** Where copy (i, j) of the unit cell is moved. */
  function CellShift(lv: Lattice, ax: int, ay: int, i: int, j: int): XY
  {
    XY(Times(i - ax, lv.a.x) - Times(j - ay, lv.b.x), Times(j - ay, lv.b.y) - Times(i - ax, lv.a.y))
  }

  /** An integer count times a real. */
  function Times(k: int, x: real): real
  {
    (k as real) * x
  }

  const CellOpen := Lit("object { UnitCell translate <")

  /** `object { UnitCell translate <x, y, 0> }` */
  function CellText(p: XY): Text
  {
    [CellOpen, Num(p.x, Plain), Lit(", "), Num(p.y, Plain), Lit(", 0> }\n\t")]
  }

  /** The objects for the shifts `ps`, in order. */
  function Cells(ps: seq<XY>): Text
  {
    if ps == [] then [] else Cells(ps[..|ps| - 1]) + CellText(ps[|ps| - 1])
  }

  /** The shifts of copies (i, 0) .. (i, m - 1). */
  function RowShifts(lv: Lattice, ax: int, ay: int, i: int, m: nat): seq<XY>
  {
    if m == 0 then [] else RowShifts(lv, ax, ay, i, m - 1) + [CellShift(lv, ax, ay, i, m - 1)]
  }

  /** The shifts of rows 0 .. k - 1 of ny copies each, row by row. */
  function GridShifts(lv: Lattice, ax: int, ay: int, k: nat, ny: nat): seq<XY>
  {
    if k == 0 then [] else GridShifts(lv, ax, ay, k - 1, ny) + RowShifts(lv, ax, ay, k - 1, ny)
  }

  /** The nested loops of the replication: one object per copy, the
      column index j running fastest. */
  method WriteGrid(lv: Lattice, numX: int, numY: int) returns (t: Text)
    ensures t == Cells(GridShifts(lv, Adj(numX), Adj(numY), Passes(numX), Passes(numY)))
  {
    var ax, ay := Adj(numX), Adj(numY);
    var nx, ny := Passes(numX), Passes(numY);
    t := [];
    ghost var done: seq<XY> := [];
    for i := 0 to nx
      invariant done == GridShifts(lv, ax, ay, i, ny) && t == Cells(done)
    {
      ghost var rows := done;
      for j := 0 to ny
        invariant done == rows + RowShifts(lv, ax, ay, i, j) && t == Cells(done)
      {
        var shift := CellShift(lv, ax, ay, i, j);
        t := t + CellText(shift);
        done := done + [shift];
        assert done[..|done| - 1] == rows + RowShifts(lv, ax, ay, i, j);
      }
    }
  }

  /** One object per shift. */
  lemma {:induction false} CellsCount(ps: seq<XY>)
    ensures Count(Cells(ps), CellOpen) == |ps|
  {
    if ps == [] {
      assert multiset(Cells(ps)) == multiset{};
    } else {
      var last := ps[|ps| - 1];
      CellsCount(ps[..|ps| - 1]);
      CountSplit(Cells(ps[..|ps| - 1]), CellText(last), CellOpen);
      CellOnce(last);
    }
  }

  lemma CellOnce(p: XY)
    ensures Count(CellText(p), CellOpen) == 1
  {
    var t := CellText(p);
    assert t == [CellOpen] + t[1..];
    CountSplit([CellOpen], t[1..], CellOpen);
    CountSingle(CellOpen, CellOpen);
    assert CellOpen !in multiset(t[1..]);
  }

  /** Row i holds the m copies (i, j) in column order. */
  lemma {:induction false} RowShiftsAt(lv: Lattice, ax: int, ay: int, i: int, m: nat)
    ensures |RowShifts(lv, ax, ay, i, m)| == m
    ensures forall j :: 0 <= j < m ==> RowShifts(lv, ax, ay, i, m)[j] == CellShift(lv, ax, ay, i, j)
  {
    if m > 0 {
      RowShiftsAt(lv, ax, ay, i, m - 1);
    }
  }

  /** The grid holds k * ny copies. */
  lemma {:induction false} GridShiftsLength(lv: Lattice, ax: int, ay: int, k: nat, ny: nat)
    ensures |GridShifts(lv, ax, ay, k, ny)| == k * ny
  {
    if k > 0 {
      GridShiftsLength(lv, ax, ay, k - 1, ny);
      RowShiftsAt(lv, ax, ay, k - 1, ny);
      MulSucc(k - 1, ny);
    }
  }

  /** Copy (i, j) sits at position i * ny + j of the grid. */
  lemma {:induction false} GridShiftsAt(lv: Lattice, ax: int, ay: int, k: nat, ny: nat, i: nat, j: nat)
    requires i < k && j < ny
    ensures i * ny + j < |GridShifts(lv, ax, ay, k, ny)|
    ensures GridShifts(lv, ax, ay, k, ny)[i * ny + j] == CellShift(lv, ax, ay, i, j)
  {
    if i < k - 1 {
      GridShiftsAt(lv, ax, ay, k - 1, ny, i, j);
      GridKeepsRows(lv, ax, ay, k, ny, i * ny + j);
    } else {
      GridLastRow(lv, ax, ay, k, ny, j);
    }
  }

  /** Adding row k - 1 keeps the rows before it in place. */
  lemma GridKeepsRows(lv: Lattice, ax: int, ay: int, k: nat, ny: nat, n: nat)
    requires k > 0 && n < |GridShifts(lv, ax, ay, k - 1, ny)|
    ensures n < |GridShifts(lv, ax, ay, k, ny)|
    ensures GridShifts(lv, ax, ay, k, ny)[n] == GridShifts(lv, ax, ay, k - 1, ny)[n]
  {
    AppendAt(GridShifts(lv, ax, ay, k - 1, ny), RowShifts(lv, ax, ay, k - 1, ny), n);
  }

  /** Row k - 1 is the last ny copies. */
  lemma GridLastRow(lv: Lattice, ax: int, ay: int, k: nat, ny: nat, j: nat)
    requires k > 0 && j < ny
    ensures (k - 1) * ny + j < |GridShifts(lv, ax, ay, k, ny)|
    ensures GridShifts(lv, ax, ay, k, ny)[(k - 1) * ny + j] == CellShift(lv, ax, ay, k - 1, j)
  {
    var prev, row := GridShifts(lv, ax, ay, k - 1, ny), RowShifts(lv, ax, ay, k - 1, ny);
    GridShiftsLength(lv, ax, ay, k - 1, ny);
    RowShiftsAt(lv, ax, ay, k - 1, ny);
    AppendAt(prev, row, |prev| + j);
  }

  lemma AppendAt<T>(a: seq<T>, b: seq<T>, n: nat)
    requires n < |a| + |b|
    ensures (a + b)[n] == if n < |a| then a[n] else b[n - |a|]
  {
  }

  /** The grid holds exactly nx * ny objects. */
  lemma GridCells(lv: Lattice, ax: int, ay: int, k: nat, ny: nat)
    ensures Count(Cells(GridShifts(lv, ax, ay, k, ny)), CellOpen) == k * ny
  {
    CellsCount(GridShifts(lv, ax, ay, k, ny));
    GridShiftsLength(lv, ax, ay, k, ny);
  }

  // ---------------------------------------------------------------------
  // The layer stack (util_shapes.py:1396-1447)
  // ---------------------------------------------------------------------

  /** The height layer i adds to the stack: its thickness when it has shapes. */
  function Rise(dev: DeviceRec, i: nat): real
  {
    if i in dev.layers && dev.layers[i].shapes.Some? then dev.layers[i].thickness else 0.0
  }

  /** `device_dims[2]` on reaching layer k: the thicknesses of the layers
      with shapes below it. */
  function StackHeight(dev: DeviceRec, k: nat): real
  {
    if k == 0 then 0.0 else StackHeight(dev, k - 1) + Rise(dev, k - 1)
  }

  /** The lattice vectors with every component raised by 0.0002, so that
      neighbouring background slabs overlap. */
  function Bumped(lv: Lattice): Lattice
  {
    Lattice(XY(lv.a.x + 0.0002, lv.a.y + 0.0002), XY(lv.b.x + 0.0002, lv.b.y + 0.0002))
  }

  /** The `end` pair of a layer of thickness t at stack height z: its top and
      bottom, both lowered by 0.0001 under a background slab. */
  function LayerEnds(z: real, t: real, hasBg: bool): (real, real)
  {
    if hasBg then (-1.0 * z - 0.0001, -1.0 * z - t - 0.0001) else (-1.0 * z, -1.0 * z - t)
  }

  /** The background slab of a layer, painted translucent. */
  function BackgroundText(lv: Lattice, t: real, z: real, col: seq<real>, ior: real): Text
    requires |col| >= 5
  {
    [Lit("// Layer background\n\t")]
    + SlabText(t, Shift(SlabCorners(Bumped(lv)), SlabHalfwidth(Bumped(lv))),
               SlabTranslate(t, 0.0, 0.0, z, "background"))
    + Pigment(col) + FinishBlock("translucent", ior, "") + [Lit("}\n\n\t")]
  }

  /** What one layer's iteration is built from: the features of its
      entries, the objects they collect to, the colours they are painted
      with, the background colour, and the stack height it starts at. */
  datatype LayerLog = LayerLog(z: real, gs: seq<Geom>, cols: seq<seq<real>>, bgCol: seq<real>)

  /** The features of a layer's entries, one per entry, at the given ends. */
  function FeatureList(shapes: seq<ShapeRec>, end0: real, end1: real, z: real, addLines: bool)
    : seq<Option<Result<Geom>>>
  {
    var tags := LayerTags(shapes);
    seq(|shapes|, k requires 0 <= k < |shapes| => FeatureAt(shapes, tags, k, end0, end1, z, addLines))
  }

  /** The features CreateDeviceLayer reports are the feature list. */
  lemma FeatureListIs(fs: seq<Option<Result<Geom>>>, shapes: seq<ShapeRec>, end0: real, end1: real, z: real,
                      addLines: bool)
    requires FeaturesOf(fs, shapes, LayerTags(shapes), end0, end1, z, addLines)
    ensures fs == FeatureList(shapes, end0, end1, z, addLines)
  {
    var fs' := FeatureList(shapes, end0, end1, z, addLines);
    assert FeaturesOf(fs', shapes, LayerTags(shapes), end0, end1, z, addLines);
    FeaturesUnique(fs, fs', shapes, LayerTags(shapes), end0, end1, z, addLines);
  }

  /** The text of layer `rec`, which has shapes: the union opened, the
      background slab when there is one, the painted features, the union
      closed. */
  function LayerChunk(rec: LayerRec, lv: Lattice, z: real, hasBg: bool, bgCol: seq<real>, ior: real,
                      gs: seq<Geom>, cols: seq<seq<real>>, useFinish: string, customFinish: string): Text
    requires hasBg ==> |bgCol| >= 5
    requires |cols| == |gs| && forall k :: 0 <= k < |cols| ==> |cols[k]| >= 5
  {
    [Lit("union\n\t{\n\t")]
    + (if hasBg then BackgroundText(lv, rec.thickness, z, bgCol, ior) else [])
    + (PaintedAll(gs, cols, useFinish, customFinish) + [Lit("}\n\t")])
  }

  /** The text the loop emits for layer `rec` with what `log` records (the
      height included): nothing for a layer without shapes (or a log that does
      not fit it), LayerChunk otherwise. */
  function ChunkAt(rec: LayerRec, lv: Lattice, coatKeys: set<string>, coatIors: map<string, real>,
                   useFinish: string, customFinish: string, log: LayerLog): Text
  {
    var hasBg := rec.background in coatKeys;
    if rec.shapes.None? || !LogFits(log, hasBg, rec.background, coatIors) then []
    else LayerChunk(rec, lv, log.z, hasBg, log.bgCol, if hasBg then coatIors[rec.background] else 0.0,
                    log.gs, log.cols, useFinish, customFinish)
  }

  /** The colours in `log` are all rgbft lists, and so is the background
      colour when there is a background whose ior is known. */
  predicate LogFits(log: LayerLog, hasBg: bool, background: string, coatIors: map<string, real>)
  {
    && |log.cols| == |log.gs| && (forall k :: 0 <= k < |log.cols| ==> |log.cols[k]| >= 5)
    && (hasBg ==> background in coatIors && |log.bgCol| >= 5)
  }

  /** The chunks chunk(0, xs[0]), chunk(1, xs[1]), ... one after another. */
  function Stacked<T>(chunk: (nat, T) -> Text, xs: seq<T>): Text
  {
    if xs == [] then [] else Stacked(chunk, xs[..|xs| - 1]) + chunk(|xs| - 1, xs[|xs| - 1])
  }

  lemma StackedSnoc<T>(chunk: (nat, T) -> Text, xs: seq<T>, x: T)
    ensures Stacked(chunk, xs + [x]) == Stacked(chunk, xs) + chunk(|xs|, x)
  {
    assert (xs + [x])[..|xs|] == xs;
  }

  /** The text of the layers the logs record, one after another. */
  function LayersText(dev: DeviceRec, lv: Lattice, coatKeys: set<string>, coatIors: map<string, real>,
                      useFinish: string, customFinish: string, logs: seq<LayerLog>): Text
  {
    Stacked(LayerChunks(dev, lv, coatKeys, coatIors, useFinish, customFinish), logs)
  }

  /** Layer k's text from its log. */
  function LayerChunks(dev: DeviceRec, lv: Lattice, coatKeys: set<string>, coatIors: map<string, real>,
                       useFinish: string, customFinish: string): (nat, LayerLog) -> Text
  {
    (k: nat, log: LayerLog) =>
      if k in dev.layers
      then ChunkAt(dev.layers[k], lv, coatKeys, coatIors, useFinish, customFinish, log)
      else []
  }

  /** The text so far followed by the next layer's chunk is the text of
      one more layer. */
  lemma LayersTextSnoc(dev: DeviceRec, lv: Lattice, coatKeys: set<string>, coatIors: map<string, real>,
                       useFinish: string, customFinish: string, logs: seq<LayerLog>, log: LayerLog)
    requires |logs| in dev.layers
    ensures LayersText(dev, lv, coatKeys, coatIors, useFinish, customFinish, logs + [log])
         == LayersText(dev, lv, coatKeys, coatIors, useFinish, customFinish, logs)
            + LayerChunks(dev, lv, coatKeys, coatIors, useFinish, customFinish)(|logs|, log)
  {
    StackedSnoc(LayerChunks(dev, lv, coatKeys, coatIors, useFinish, customFinish), logs, log);
  }

  /** The footprint `device_dims[0..1]` after layer i: grown by its
      objects' extents (and never below 0) when it has shapes. */
  function Grown(dev: DeviceRec, i: nat, p: XY, log: LayerLog): XY
  {
    if i in dev.layers && dev.layers[i].shapes.Some?
    then XY(Max(0.0, FoldX(p.x, log.gs)), Max(0.0, FoldY(p.y, log.gs)))
    else p
  }

  /** The footprint after the layers the logs record, from p0. */
  function Footprint(dev: DeviceRec, p0: XY, logs: seq<LayerLog>): XY
  {
    if logs == [] then p0
    else Grown(dev, |logs| - 1, Footprint(dev, p0, logs[..|logs| - 1]), logs[|logs| - 1])
  }

  lemma FootprintSnoc(dev: DeviceRec, p0: XY, logs: seq<LayerLog>, log: LayerLog, p: XY)
    requires p == Footprint(dev, p0, logs)
    ensures Footprint(dev, p0, logs + [log]) == Grown(dev, |logs|, p, log)
  {
    assert (logs + [log])[..|logs|] == logs;
  }

  /** Layer i, present in the record, as the loop leaves it at stack
      height z: the colour cursor unchanged for a layer without shapes;
      otherwise a log that fits it, and the cursor reset to 0 for default
      colours or moved on by one per object. */
  predicate LayerDone(dev: DeviceRec, i: nat, z: real, coatKeys: set<string>, coatIors: map<string, real>,
                      useDefault: bool, c: nat, c': nat, log: LayerLog)
    requires i in dev.layers
  {
    var rec := dev.layers[i];
    && log.z == z
    && if rec.shapes.None? then c' == c
       else LogFits(log, rec.background in coatKeys, rec.background, coatIors)
            && c' == if useDefault then 0 else c + |log.gs|
  }

  /** The features a layer with shapes logs are those its shape records
      describe, between the layer's ends at height z. */
  predicate FeaturesLogged(rec: LayerRec, z: real, hasBg: bool, addLines: bool, log: LayerLog)
    requires rec.shapes.Some?
  {
    var ends := LayerEnds(z, rec.thickness, hasBg);
    Collect(FeatureList(rec.shapes.value, ends.0, ends.1, z, addLines)) == Ok(log.gs)
  }

  /** A layer whose background names a coating colour logs that colour,
      as the caller gave it, painted "translucent". */
  predicate BackgroundLogged(rec: LayerRec, coatRgb: map<string, seq<real>>, log: LayerLog)
  {
    rec.background in coatRgb ==> log.bgCol == Resolved(coatRgb[rec.background], "translucent")
  }

  /** Every logged layer with shapes records the features of its own shape
      records, at the height it was written at, and the background slab in
      the colour its background names in `coatRgb`. */
  predicate LayersLogged(dev: DeviceRec, coatRgb: map<string, seq<real>>, logs: seq<LayerLog>, addLines: bool)
  {
    forall k :: 0 <= k < |logs| && k in dev.layers && dev.layers[k].shapes.Some? ==>
      && FeaturesLogged(dev.layers[k], logs[k].z, dev.layers[k].background in coatRgb, addLines, logs[k])
      && BackgroundLogged(dev.layers[k], coatRgb, logs[k])
  }

  lemma LayersLoggedExtend(dev: DeviceRec, coatRgb: map<string, seq<real>>, logs: seq<LayerLog>, log: LayerLog,
                           addLines: bool)
    requires LayersLogged(dev, coatRgb, logs, addLines)
    requires |logs| in dev.layers && dev.layers[|logs|].shapes.Some? ==>
      && FeaturesLogged(dev.layers[|logs|], log.z, dev.layers[|logs|].background in coatRgb, addLines, log)
      && BackgroundLogged(dev.layers[|logs|], coatRgb, log)
    ensures LayersLogged(dev, coatRgb, logs + [log], addLines)
  {
    forall k | 0 <= k < |logs| + 1 && k in dev.layers && dev.layers[k].shapes.Some?
      ensures FeaturesLogged(dev.layers[k], (logs + [log])[k].z, dev.layers[k].background in coatRgb, addLines,
                             (logs + [log])[k])
      ensures BackgroundLogged(dev.layers[k], coatRgb, (logs + [log])[k])
    {
      if k < |logs| {
        assert (logs + [log])[k] == logs[k];
      } else {
        assert (logs + [log])[k] == log;
      }
    }
  }

  /** The default colour lists are the layer loop's own: no two materials
      share one, and none is a coating colour list. */
  predicate OwnDefaults(defaults: map<string, ColorList>, coatColors: map<string, ColorList>)
  {
    Unshared(defaults) && defaults.Values !! coatColors.Values
  }

  /** Every logged feature is painted with its material's default colour
      in `rgbs0`, resolved with that material's finish. */
  predicate DefaultsLogged(logs: seq<LayerLog>, rgbs0: map<string, seq<real>>, useFinish: string)
  {
    forall k :: 0 <= k < |logs| ==> DefaultPainted(logs[k].gs, logs[k].cols, rgbs0, useFinish)
  }

  /** One more layer painted with the default colours keeps DefaultsLogged. */
  lemma DefaultsLoggedExtend(logs: seq<LayerLog>, log: LayerLog, rgbs0: map<string, seq<real>>, useFinish: string)
    requires DefaultsLogged(logs, rgbs0, useFinish) && DefaultPainted(log.gs, log.cols, rgbs0, useFinish)
    ensures DefaultsLogged(logs + [log], rgbs0, useFinish)
  {
    forall k | 0 <= k < |logs| + 1
      ensures DefaultPainted((logs + [log])[k].gs, (logs + [log])[k].cols, rgbs0, useFinish)
    {
      if k < |logs| {
        assert (logs + [log])[k] == logs[k];
      }
    }
  }

  /** Each coating colour list, painted "translucent", prints what the
      caller's colour `coatRgb` for its material would: the lists were at
      most resolved since the caller gave them. */
  predicate CoatColorsFrom(coatColors: map<string, ColorList>, coatRgb: map<string, seq<real>>)
    reads coatColors.Values
  {
    && coatColors.Keys == coatRgb.Keys
    && forall m :: m in coatColors ==> SameTranslucent(coatColors[m].rgbft, coatRgb[m])
  }

  /** color_and_finish with the coating colour of `m` under the "translucent"
      finish, as the background slabs and the coatings are painted: the
      list becomes the caller's colour made translucent, and the other
      coating colours are left as they were. */
  method PaintTranslucent(devString: Text, defaults: map<string, ColorList>, material: string,
                          coatColors: map<string, ColorList>, m: string, ior: real,
                          ghost coatRgb: map<string, seq<real>>)
    returns (r: Result<Text>, ghost col: seq<real>)
    requires m in coatColors && CoatColorsFrom(coatColors, coatRgb)
    modifies coatColors[m]
    ensures col == coatColors[m].rgbft && col == Resolved(coatRgb[m], "translucent")
    ensures r.Ok? <==> |col| >= 5
    ensures r.Err? ==> r == Err(IndexError)
    ensures r.Ok? ==> r.value == devString + Pigment(col) + FinishBlock("translucent", ior, "") + [Lit("}\n\n\t")]
    ensures CoatColorsFrom(coatColors, coatRgb)
  {
    var color := coatColors[m];
    r := ColorAndFinish(devString, defaults, material, false, color, ior, "translucent", "");
    col := color.rgbft;
    forall k | k in coatColors
      ensures SameTranslucent(coatColors[k].rgbft, coatRgb[k])
    {
      assert coatColors[k] in coatColors.Values;
    }
  }

  /** One pass of the layer loop: layer i is looked up, skipped when it has
      no shapes, and otherwise opened as a union, given its background slab
      when its background is a coating colour, and filled with its features
      at the layer's ends. */
  method WriteLayer(dev: DeviceRec, i: nat, lv: Lattice, dims: array<real>,
                    defaults: map<string, ColorList>, coatColors: map<string, ColorList>,
                    coatIors: map<string, real>, useDefault: bool, customs: seq<ColorList>, c: nat,
                    useFinish: string, customFinish: string, addLines: bool, ghost coatRgb: map<string, seq<real>>,
                    ghost rgbs0: map<string, seq<real>>)
    returns (r: Result<(Text, nat)>, ghost log: LayerLog)
    requires dims.Length == 3
    requires CoatColorsFrom(coatColors, coatRgb)
    modifies dims, Palette(defaults, customs), coatColors.Values
    ensures i !in dev.layers ==> r == Err(KeyError(NatStr(i)))
    ensures i in dev.layers && dev.layers[i].shapes.None? ==> r == Ok(([], c)) && dims[..] == old(dims[..])
    ensures r.Ok? ==>
      && i in dev.layers && dims[2] == old(dims[2]) + Rise(dev, i)
      && LayerDone(dev, i, old(dims[2]), coatColors.Keys, coatIors, useDefault, c, r.value.1, log)
      && XY(dims[0], dims[1]) == Grown(dev, i, XY(old(dims[0]), old(dims[1])), log)
      && r.value.0 == LayerChunks(dev, lv, coatColors.Keys, coatIors, useFinish, customFinish)(i, log)
    ensures r.Ok? && dev.layers[i].shapes.Some? ==>
      && FeaturesLogged(dev.layers[i], log.z, dev.layers[i].background in coatColors.Keys, addLines, log)
      && BackgroundLogged(dev.layers[i], coatRgb, log)
    ensures r.Ok? ==> CoatColorsFrom(coatColors, coatRgb)
    ensures useDefault && OwnDefaults(defaults, coatColors) && old(DefaultsHold(defaults, rgbs0, useFinish)) ==>
      && DefaultsHold(defaults, rgbs0, useFinish)
      && (r.Ok? ==> DefaultPainted(log.gs, log.cols, rgbs0, useFinish))
  {
    log := LayerLog(dims[2], [], [], []);
    if i !in dev.layers {
      return Err(KeyError(NatStr(i))), log;
    }
    var rec := dev.layers[i];
    if rec.shapes.None? {
      return Ok(([], c)), log;
    }
    r, log := WriteShapedLayer(rec, lv, dims, defaults, coatColors, coatIors, useDefault, customs, c, useFinish,
                               customFinish, addLines, coatRgb, rgbs0);
  }

  /** The layer pass for a layer with shapes: the union, the background
      slab when the background is a coating colour, and the features
      between the layer's ends. */
  method WriteShapedLayer(rec: LayerRec, lv: Lattice, dims: array<real>,
                          defaults: map<string, ColorList>, coatColors: map<string, ColorList>,
                          coatIors: map<string, real>, useDefault: bool, customs: seq<ColorList>, c: nat,
                          useFinish: string, customFinish: string, addLines: bool,
                          ghost coatRgb: map<string, seq<real>>, ghost rgbs0: map<string, seq<real>>)
    returns (r: Result<(Text, nat)>, ghost log: LayerLog)
    requires dims.Length == 3 && rec.shapes.Some?
    requires CoatColorsFrom(coatColors, coatRgb)
    modifies dims, Palette(defaults, customs), coatColors.Values
    ensures r.Ok? ==>
      && log.z == old(dims[2]) && dims[2] == old(dims[2]) + rec.thickness
      && LogFits(log, rec.background in coatColors.Keys, rec.background, coatIors)
      && r.value.1 == (if useDefault then 0 else c + |log.gs|)
      && dims[0] == Max(0.0, FoldX(old(dims[0]), log.gs)) && dims[1] == Max(0.0, FoldY(old(dims[1]), log.gs))
      && r.value.0 == ChunkAt(rec, lv, coatColors.Keys, coatIors, useFinish, customFinish, log)
      && FeaturesLogged(rec, log.z, rec.background in coatColors.Keys, addLines, log)
      && BackgroundLogged(rec, coatRgb, log)
      && CoatColorsFrom(coatColors, coatRgb)
    ensures useDefault && OwnDefaults(defaults, coatColors) && old(DefaultsHold(defaults, rgbs0, useFinish)) ==>
      && DefaultsHold(defaults, rgbs0, useFinish)
      && (r.Ok? ==> DefaultPainted(log.gs, log.cols, rgbs0, useFinish))
  {
    log := LayerLog(dims[2], [], [], []);
    var bg, bgCol := WriteBackground(rec, lv, dims, defaults, coatColors, coatIors, coatRgb);
    if bg.Err? {
      return Err(bg.error), log;
    }
    r, log := WriteFeatures(rec, lv, dims, defaults, coatColors, coatIors, useDefault, customs, c, useFinish,
                            customFinish, addLines, coatRgb, bg.value, bgCol, rgbs0);
  }

  /** The layer pass once its background slab `bg` (in colour `bgCol`) is
      written: the features between the layer's ends, after the union and
      the slab. */
  method WriteFeatures(rec: LayerRec, lv: Lattice, dims: array<real>,
                       defaults: map<string, ColorList>, coatColors: map<string, ColorList>,
                       coatIors: map<string, real>, useDefault: bool, customs: seq<ColorList>, c: nat,
                       useFinish: string, customFinish: string, addLines: bool,
                       ghost coatRgb: map<string, seq<real>>, bg: Text, ghost bgCol: seq<real>,
                       ghost rgbs0: map<string, seq<real>>)
    returns (r: Result<(Text, nat)>, ghost log: LayerLog)
    requires dims.Length == 3 && rec.shapes.Some?
    requires CoatColorsFrom(coatColors, coatRgb)
    requires rec.background !in coatColors ==> bg == []
    requires rec.background in coatColors ==>
      && rec.background in coatIors
      && bgCol == Resolved(coatRgb[rec.background], "translucent") && |bgCol| >= 5
      && bg == BackgroundText(lv, rec.thickness, dims[2], bgCol, coatIors[rec.background])
    modifies dims, Palette(defaults, customs), coatColors.Values
    ensures r.Ok? ==>
      && log.z == old(dims[2]) && dims[2] == old(dims[2]) + rec.thickness
      && LogFits(log, rec.background in coatColors.Keys, rec.background, coatIors)
      && r.value.1 == (if useDefault then 0 else c + |log.gs|)
      && dims[0] == Max(0.0, FoldX(old(dims[0]), log.gs)) && dims[1] == Max(0.0, FoldY(old(dims[1]), log.gs))
      && r.value.0 == ChunkAt(rec, lv, coatColors.Keys, coatIors, useFinish, customFinish, log)
      && FeaturesLogged(rec, log.z, rec.background in coatColors.Keys, addLines, log)
      && BackgroundLogged(rec, coatRgb, log)
      && CoatColorsFrom(coatColors, coatRgb)
    ensures useDefault && Unshared(defaults) && old(DefaultsHold(defaults, rgbs0, useFinish)) ==>
      && DefaultsHold(defaults, rgbs0, useFinish)
      && (r.Ok? ==> DefaultPainted(log.gs, log.cols, rgbs0, useFinish))
  {
    log := LayerLog(dims[2], [], [], []);
    var hasBg := rec.background in coatColors;
    var z := dims[2];
    var ends := LayerEnds(z, rec.thickness, hasBg);
    var layer, fs, gs, cols := LayerBody(rec.shapes.value, dims, ends.0, ends.1, rec.thickness, defaults,
                                         coatColors, useDefault, customs, c, useFinish, customFinish, addLines,
                                         coatRgb, rgbs0);
    if layer.Err? {
      return Err(layer.error), log;
    }
    log := LayerLog(z, gs, cols, bgCol);
    FeatureListIs(fs, rec.shapes.value, ends.0, ends.1, z, addLines);
    ChunkIntro(rec, lv, coatColors.Keys, coatIors, useFinish, customFinish, log, bg, layer.value.0);
    r := Ok(([Lit("union\n\t{\n\t")] + bg + layer.value.0, layer.value.1));
  }

  /** create_device_layer inside the layer pass: the coating colour lists,
      which the palette may share, still print what `coatRgb` does once
      made translucent. */
  method LayerBody(shapes: seq<ShapeRec>, dims: array<real>, end0: real, end1: real, thickness: real,
                   defaults: map<string, ColorList>, coatColors: map<string, ColorList>, useDefault: bool,
                   customs: seq<ColorList>, c: nat, useFinish: string, customFinish: string, addLines: bool,
                   ghost coatRgb: map<string, seq<real>>, ghost rgbs0: map<string, seq<real>>)
    returns (r: Result<(Text, nat)>, ghost fs: seq<Option<Result<Geom>>>, ghost gs: seq<Geom>,
             ghost cols: seq<seq<real>>)
    requires dims.Length == 3
    requires CoatColorsFrom(coatColors, coatRgb)
    modifies dims, Palette(defaults, customs)
    ensures FeaturesOf(fs, shapes, LayerTags(shapes), end0, end1, old(dims[2]), addLines)
    ensures r.Ok? ==>
      && Collect(fs) == Ok(gs)
      && |cols| == |gs| && (forall i :: 0 <= i < |cols| ==> |cols[i]| >= 5)
      && r.value.0 == PaintedAll(gs, cols, useFinish, customFinish) + [Lit("}\n\t")]
      && r.value.1 == (if useDefault then 0 else c + |gs|)
      && dims[0] == Max(0.0, FoldX(old(dims[0]), gs)) && dims[1] == Max(0.0, FoldY(old(dims[1]), gs))
      && dims[2] == old(dims[2]) + thickness
    ensures CoatColorsFrom(coatColors, coatRgb)
    ensures useDefault && Unshared(defaults) && old(DefaultsHold(defaults, rgbs0, useFinish)) ==>
      && DefaultsHold(defaults, rgbs0, useFinish)
      && (r.Ok? ==> DefaultPainted(gs, cols, rgbs0, useFinish))
  {
    r, fs, gs, cols := CreateDeviceLayer(shapes, dims, end0, end1, thickness, defaults, useDefault, customs, c,
                                         useFinish, customFinish, addLines, rgbs0);
  }

  /** ChunkAt from the pieces the layer pass appends. */
  lemma ChunkIntro(rec: LayerRec, lv: Lattice, coatKeys: set<string>, coatIors: map<string, real>,
                   useFinish: string, customFinish: string, log: LayerLog, bg: Text, body: Text)
    requires rec.shapes.Some?
    requires LogFits(log, rec.background in coatKeys, rec.background, coatIors)
    requires rec.background in coatKeys ==>
      bg == BackgroundText(lv, rec.thickness, log.z, log.bgCol, coatIors[rec.background])
    requires rec.background !in coatKeys ==> bg == []
    requires body == PaintedAll(log.gs, log.cols, useFinish, customFinish) + [Lit("}\n\t")]
    ensures ChunkAt(rec, lv, coatKeys, coatIors, useFinish, customFinish, log)
         == [Lit("union\n\t{\n\t")] + bg + body
  {
  }

  /** The background slab of a layer whose background is a coating colour:
      the slab over the bumped lattice, painted with that colour made
      translucent. */
  method WriteBackground(rec: LayerRec, lv: Lattice, dims: array<real>, defaults: map<string, ColorList>,
                         coatColors: map<string, ColorList>, coatIors: map<string, real>,
                         ghost coatRgb: map<string, seq<real>>)
    returns (r: Result<Text>, ghost col: seq<real>)
    requires dims.Length == 3
    requires CoatColorsFrom(coatColors, coatRgb)
    modifies coatColors.Values
    ensures dims[0] == old(dims[0]) && dims[1] == old(dims[1]) && dims[2] == old(dims[2])
    ensures rec.background !in coatColors ==> r == Ok([])
    ensures rec.background in coatColors && rec.background !in coatIors ==> r == Err(KeyError(rec.background))
    ensures r.Ok? && rec.background in coatColors ==>
      && rec.background in coatIors
      && col == Resolved(coatRgb[rec.background], "translucent") && |col| >= 5
      && r.value == BackgroundText(lv, rec.thickness, dims[2], col, coatIors[rec.background])
    ensures CoatColorsFrom(coatColors, coatRgb)
    ensures defaults.Values !! coatColors.Values ==> unchanged(defaults.Values)
  {
    col := [];
    if rec.background !in coatColors {
      return Ok([]), col;
    }
    var slab, _ := AddSlab(Bumped(lv), rec.thickness, dims, "background");
    if rec.background !in coatIors {
      return Err(KeyError(rec.background)), col;
    }
    var painted;
    painted, col := PaintTranslucent(slab, defaults, rec.background, coatColors, rec.background,
                                     coatIors[rec.background], coatRgb);
    if painted.Err? {
      return Err(painted.error), col;
    }
    BackgroundIs(slab, lv, rec.thickness, dims[0], dims[1], dims[2], col, coatIors[rec.background],
                 rec.background);
    r := Ok([Lit("// Layer background\n\t")] + painted.value);
  }

  /** The background slab as ColorAndFinish returns it. */
  lemma BackgroundIs(slab: Text, lv: Lattice, t: real, d0: real, d1: real, z: real, col: seq<real>, ior: real,
                     material: string)
    requires |col| >= 5
    requires slab == SlabText(t, Shift(SlabCorners(Bumped(lv)), SlabHalfwidth(Bumped(lv))),
                              SlabTranslate(t, d0, d1, z, "background"))
    ensures [Lit("// Layer background\n\t")] + (slab + Pigment(col)
            + FinishBlock(ResolveFinish("translucent", material), ior, "") + [Lit("}\n\n\t")])
            == BackgroundText(lv, t, z, col, ior)
  {
    assert SlabTranslate(t, d0, d1, z, "background") == SlabTranslate(t, 0.0, 0.0, z, "background");
    var finish := ResolveFinish("translucent", material);
    assert finish == "translucent";
    Regroup([Lit("// Layer background\n\t")], slab, Pigment(col), FinishBlock(finish, ior, ""),
            [Lit("}\n\n\t")]);
  }

  lemma Regroup<T>(a: seq<T>, b: seq<T>, c: seq<T>, d: seq<T>, e: seq<T>)
    ensures a + (b + c + d + e) == a + b + c + d + e
  {
  }

  /** The first |logs| layers written, layer i present and starting at
      height z0 + StackHeight(dev, i), the colour cursor threaded from 0
      through `cursors`. */
  predicate LayersWritten(dev: DeviceRec, z0: real, coatKeys: set<string>, coatIors: map<string, real>,
                          useDefault: bool, logs: seq<LayerLog>, cursors: seq<nat>)
    decreases |logs|
  {
    && |cursors| == |logs| + 1 && cursors[0] == 0
    && (logs != [] ==>
          var k := |logs| - 1;
          && k in dev.layers
          && LayersWritten(dev, z0, coatKeys, coatIors, useDefault, logs[..k], cursors[..k + 1])
          && LayerDone(dev, k, z0 + StackHeight(dev, k), coatKeys, coatIors, useDefault, cursors[k],
                       cursors[k + 1], logs[k]))
  }

  /** The background of the last layer below k that has shapes: the
      variable `background` as the layer loop leaves it. */
  function LastBackground(dev: DeviceRec, k: nat): Option<string>
  {
    if k == 0 then None
    else if k - 1 in dev.layers && dev.layers[k - 1].shapes.Some? then Some(dev.layers[k - 1].background)
    else LastBackground(dev, k - 1)
  }

  /** The layer loop of create_device (util_shapes.py:1396-1447). */
  method WriteLayers(dev: DeviceRec, lv: Lattice, dims: array<real>, defaults: map<string, ColorList>,
                     coatColors: map<string, ColorList>, coatIors: map<string, real>, useDefault: bool,
                     customs: seq<ColorList>, useFinish: string, customFinish: string, addLines: bool,
                     ghost coatRgb: map<string, seq<real>>, ghost rgbs0: map<string, seq<real>>)
    returns (r: Result<(Text, Option<string>)>, ghost logs: seq<LayerLog>, ghost cursors: seq<nat>)
    requires dims.Length == 3
    requires CoatColorsFrom(coatColors, coatRgb)
    modifies dims, Palette(defaults, customs), coatColors.Values
    ensures r.Ok? ==>
      && |logs| == dev.numLayers
      && LayersWritten(dev, old(dims[2]), coatColors.Keys, coatIors, useDefault, logs, cursors)
      && LayersLogged(dev, coatRgb, logs, addLines)
      && CoatColorsFrom(coatColors, coatRgb)
      && r.value.0 == LayersText(dev, lv, coatColors.Keys, coatIors, useFinish, customFinish, logs)
      && r.value.1 == LastBackground(dev, dev.numLayers)
      && dims[2] == old(dims[2]) + StackHeight(dev, dev.numLayers)
      && XY(dims[0], dims[1]) == Footprint(dev, XY(old(dims[0]), old(dims[1])), logs)
    ensures r.Ok? && useDefault && OwnDefaults(defaults, coatColors) && old(DefaultsHold(defaults, rgbs0, useFinish)) ==>
      DefaultsLogged(logs, rgbs0, useFinish)
  {
    ghost var z0, p0 := dims[2], XY(dims[0], dims[1]);
    var text: Text := [];
    var c: nat := 0;
    var background: Option<string> := None;
    logs, cursors := [], [0];
    for i := 0 to dev.numLayers
      invariant |logs| == i
      invariant CoatColorsFrom(coatColors, coatRgb)
      invariant LayersSoFar(dev, lv, coatColors.Keys, coatIors, useDefault, useFinish, customFinish, z0, p0,
                            logs, cursors, text, c, background, dims[2], XY(dims[0], dims[1]), addLines, coatRgb)
      invariant useDefault && OwnDefaults(defaults, coatColors) && old(DefaultsHold(defaults, rgbs0, useFinish)) ==>
        DefaultsHold(defaults, rgbs0, useFinish) && DefaultsLogged(logs, rgbs0, useFinish)
    {
      var step, logs', cursors' := LayerPass(dev, i, lv, dims, defaults, coatColors, coatIors, useDefault,
                                             customs, useFinish, customFinish, addLines, z0, p0, text, c,
                                             background, logs, cursors, coatRgb, rgbs0);
      if step.Err? {
        return Err(step.error), logs, cursors;
      }
      text, c, background := step.value.0, step.value.1, step.value.2;
      logs, cursors := logs', cursors';
    }
    r := Ok((text, background));
  }

  /** What the layer loop keeps: after the first |logs| layers, the text,
      the colour cursor, the last background, the stack height and the
      footprint are those the logs determine, from height z0 and footprint
      p0. */
  predicate LayersSoFar(dev: DeviceRec, lv: Lattice, coatKeys: set<string>, coatIors: map<string, real>,
                        useDefault: bool, useFinish: string, customFinish: string, z0: real, p0: XY,
                        logs: seq<LayerLog>, cursors: seq<nat>, text: Text, c: nat, background: Option<string>,
                        z: real, p: XY, addLines: bool, coatRgb: map<string, seq<real>>)
  {
    && LayersWritten(dev, z0, coatKeys, coatIors, useDefault, logs, cursors)
    && coatRgb.Keys == coatKeys
    && LayersLogged(dev, coatRgb, logs, addLines)
    && text == LayersText(dev, lv, coatKeys, coatIors, useFinish, customFinish, logs)
    && c == cursors[|logs|] && background == LastBackground(dev, |logs|)
    && z == z0 + StackHeight(dev, |logs|) && p == Footprint(dev, p0, logs)
  }

  /** One pass of the layer loop, stated against the loop's record of what
      is written so far: layer i's text is appended, its log and cursor
      recorded, and the stack height moves on to layer i + 1. */
  method LayerPass(dev: DeviceRec, i: nat, lv: Lattice, dims: array<real>, defaults: map<string, ColorList>,
                   coatColors: map<string, ColorList>, coatIors: map<string, real>, useDefault: bool,
                   customs: seq<ColorList>, useFinish: string, customFinish: string, addLines: bool,
                   ghost z0: real, ghost p0: XY, text: Text, c: nat, background: Option<string>,
                   ghost logs: seq<LayerLog>, ghost cursors: seq<nat>, ghost coatRgb: map<string, seq<real>>,
                   ghost rgbs0: map<string, seq<real>>)
    returns (r: Result<(Text, nat, Option<string>)>, ghost logs': seq<LayerLog>, ghost cursors': seq<nat>)
    requires dims.Length == 3
    requires |logs| == i
    requires CoatColorsFrom(coatColors, coatRgb)
    requires LayersSoFar(dev, lv, coatColors.Keys, coatIors, useDefault, useFinish, customFinish, z0, p0,
                         logs, cursors, text, c, background, dims[2], XY(dims[0], dims[1]), addLines, coatRgb)
    modifies dims, Palette(defaults, customs), coatColors.Values
    ensures r.Ok? ==>
      && |logs'| == i + 1 && CoatColorsFrom(coatColors, coatRgb)
      && LayersSoFar(dev, lv, coatColors.Keys, coatIors, useDefault, useFinish, customFinish, z0, p0,
                     logs', cursors', r.value.0, r.value.1, r.value.2, dims[2], XY(dims[0], dims[1]), addLines,
                     coatRgb)
    ensures useDefault && OwnDefaults(defaults, coatColors) && old(DefaultsHold(defaults, rgbs0, useFinish)) &&
            DefaultsLogged(logs, rgbs0, useFinish) ==>
      && DefaultsHold(defaults, rgbs0, useFinish)
      && (r.Ok? ==> DefaultsLogged(logs', rgbs0, useFinish))
  {
    logs', cursors' := logs, cursors;
    ghost var z, p := dims[2], XY(dims[0], dims[1]);
    ghost var painted := useDefault && OwnDefaults(defaults, coatColors) && DefaultsHold(defaults, rgbs0, useFinish) &&
                         DefaultsLogged(logs, rgbs0, useFinish);
    var step, log := WriteLayer(dev, i, lv, dims, defaults, coatColors, coatIors, useDefault, customs, c,
                                useFinish, customFinish, addLines, coatRgb, rgbs0);
    if step.Err? {
      return Err(step.error), logs', cursors';
    }
    PassExtends(dev, lv, coatColors.Keys, coatIors, useDefault, useFinish, customFinish, z0, p0, logs, cursors,
                text, c, background, z, p, addLines, coatRgb, log, step.value.1, step.value.0);
    if painted {
      DefaultsLoggedExtend(logs, log, rgbs0, useFinish);
    }
    var background' := if dev.layers[i].shapes.Some? then Some(dev.layers[i].background) else background;
    logs', cursors' := logs + [log], cursors + [step.value.1];
    r := Ok((text + step.value.0, step.value.1, background'));
  }

  /** Layer i written as WriteLayer promises keeps LayersSoFar. */
  lemma PassExtends(dev: DeviceRec, lv: Lattice, coatKeys: set<string>, coatIors: map<string, real>,
                    useDefault: bool, useFinish: string, customFinish: string, z0: real, p0: XY,
                    logs: seq<LayerLog>, cursors: seq<nat>, text: Text, c: nat, background: Option<string>,
                    z: real, p: XY, addLines: bool, coatRgb: map<string, seq<real>>, log: LayerLog, c': nat,
                    chunk: Text)
    requires LayersSoFar(dev, lv, coatKeys, coatIors, useDefault, useFinish, customFinish, z0, p0,
                         logs, cursors, text, c, background, z, p, addLines, coatRgb)
    requires |logs| in dev.layers
    requires LayerDone(dev, |logs|, z, coatKeys, coatIors, useDefault, c, c', log)
    requires chunk == LayerChunks(dev, lv, coatKeys, coatIors, useFinish, customFinish)(|logs|, log)
    requires dev.layers[|logs|].shapes.Some? ==>
      && FeaturesLogged(dev.layers[|logs|], log.z, dev.layers[|logs|].background in coatKeys, addLines, log)
      && BackgroundLogged(dev.layers[|logs|], coatRgb, log)
    ensures LayersSoFar(dev, lv, coatKeys, coatIors, useDefault, useFinish, customFinish, z0, p0,
                        logs + [log], cursors + [c'], text + chunk, c',
                        if dev.layers[|logs|].shapes.Some? then Some(dev.layers[|logs|].background) else background,
                        z + Rise(dev, |logs|), Grown(dev, |logs|, p, log), addLines, coatRgb)
  {
    LayersExtend(dev, z0, coatKeys, coatIors, useDefault, logs, cursors, |logs|, z, c, log, c');
    LayersLoggedExtend(dev, coatRgb, logs, log, addLines);
    LayersTextSnoc(dev, lv, coatKeys, coatIors, useFinish, customFinish, logs, log);
    FootprintSnoc(dev, p0, logs, log, p);
  }

  /** One more layer written keeps LayersWritten. */
  lemma LayersExtend(dev: DeviceRec, z0: real, coatKeys: set<string>, coatIors: map<string, real>,
                     useDefault: bool, logs: seq<LayerLog>, cursors: seq<nat>, k: nat, z: real, c: nat,
                     log: LayerLog, c': nat)
    requires LayersWritten(dev, z0, coatKeys, coatIors, useDefault, logs, cursors)
    requires k == |logs| && k in dev.layers && z == z0 + StackHeight(dev, k) && c == cursors[k]
    requires LayerDone(dev, k, z, coatKeys, coatIors, useDefault, c, c', log)
    ensures LayersWritten(dev, z0, coatKeys, coatIors, useDefault, logs + [log], cursors + [c'])
  {
    var logs', cursors' := logs + [log], cursors + [c'];
    assert logs'[..k] == logs && cursors'[..k + 1] == cursors;
    assert logs'[k] == log && cursors'[k] == cursors[k] && cursors'[k + 1] == c';
  }

  // ---------------------------------------------------------------------
  // What the layer loop establishes
  // ---------------------------------------------------------------------

  /** Each written layer k is present, was written at height
      z0 + StackHeight(dev, k), and moved the cursor from cursors[k] to
      cursors[k + 1]. */
  lemma {:induction false} LayersWrittenAt(dev: DeviceRec, z0: real, coatKeys: set<string>,
                                           coatIors: map<string, real>, useDefault: bool,
                                           logs: seq<LayerLog>, cursors: seq<nat>, k: nat)
    requires LayersWritten(dev, z0, coatKeys, coatIors, useDefault, logs, cursors)
    requires k < |logs|
    ensures k in dev.layers && logs[k].z == z0 + StackHeight(dev, k)
    ensures LayerDone(dev, k, z0 + StackHeight(dev, k), coatKeys, coatIors, useDefault, cursors[k], cursors[k + 1],
                      logs[k])
    decreases |logs|
  {
    var n := |logs| - 1;
    if k < n {
      LayersWrittenAt(dev, z0, coatKeys, coatIors, useDefault, logs[..n], cursors[..n + 1], k);
      assert logs[..n][k] == logs[k];
      assert cursors[..n + 1][k] == cursors[k] && cursors[..n + 1][k + 1] == cursors[k + 1];
    }
  }

  /** With non-negative thicknesses the layers do not overlap: layer j > i
      starts no lower than the top of layer i. */
  lemma {:induction false} LayersDisjoint(dev: DeviceRec, i: nat, j: nat)
    requires forall k :: k in dev.layers ==> dev.layers[k].thickness >= 0.0
    requires i < j
    ensures StackHeight(dev, i) + Rise(dev, i) <= StackHeight(dev, j)
    decreases j
  {
    if j > i + 1 {
      LayersDisjoint(dev, i, j - 1);
      assert Rise(dev, j - 1) >= 0.0;
    }
  }

  /** The number of objects the logged layers with shapes painted. */
  function ObjectsWritten(dev: DeviceRec, logs: seq<LayerLog>): nat
  {
    if logs == [] then 0
    else
      var k := |logs| - 1;
      ObjectsWritten(dev, logs[..k]) + (if k in dev.layers && dev.layers[k].shapes.Some? then |logs[k].gs| else 0)
  }

  /** The colour cursor after the loop: 0 with default colours, otherwise
      one step per object painted. */
  lemma {:induction false} CursorCount(dev: DeviceRec, z0: real, coatKeys: set<string>, coatIors: map<string, real>,
                                       useDefault: bool, logs: seq<LayerLog>, cursors: seq<nat>)
    requires LayersWritten(dev, z0, coatKeys, coatIors, useDefault, logs, cursors)
    ensures cursors[|logs|] == if useDefault then 0 else ObjectsWritten(dev, logs)
    decreases |logs|
  {
    if logs != [] {
      var k := |logs| - 1;
      CursorCount(dev, z0, coatKeys, coatIors, useDefault, logs[..k], cursors[..k + 1]);
      assert cursors[..k + 1][k] == cursors[k];
    }
  }

  /** `background` is still unbound after the loop exactly when no layer
      below k has shapes. */
  lemma {:induction false} LastBackgroundNone(dev: DeviceRec, k: nat)
    ensures LastBackground(dev, k).None? <==> forall j :: 0 <= j < k ==> !(j in dev.layers && dev.layers[j].shapes.Some?)
  {
    if k > 0 {
      LastBackgroundNone(dev, k - 1);
    }
  }

  /** Otherwise it is the background of the highest layer below k with
      shapes. */
  lemma {:induction false} LastBackgroundSome(dev: DeviceRec, k: nat)
    requires LastBackground(dev, k).Some?
    ensures exists j :: 0 <= j < k && j in dev.layers && dev.layers[j].shapes.Some?
                        && LastBackground(dev, k).value == dev.layers[j].background
                        && forall i :: j < i < k ==> !(i in dev.layers && dev.layers[i].shapes.Some?)
  {
    if k - 1 in dev.layers && dev.layers[k - 1].shapes.Some? {
      assert 0 <= k - 1 < k;
    } else {
      LastBackgroundSome(dev, k - 1);
    }
  }

  /** The footprint never shrinks, and once a layer with shapes is written
      it is never negative. */
  lemma {:induction false} FootprintGrows(dev: DeviceRec, p0: XY, logs: seq<LayerLog>)
    ensures Footprint(dev, p0, logs).x >= p0.x && Footprint(dev, p0, logs).y >= p0.y
    ensures (exists k :: 0 <= k < |logs| && k in dev.layers && dev.layers[k].shapes.Some?) ==>
              Footprint(dev, p0, logs).x >= 0.0 && Footprint(dev, p0, logs).y >= 0.0
  {
    if logs != [] {
      var n := |logs| - 1;
      var p := Footprint(dev, p0, logs[..n]);
      FootprintGrows(dev, p0, logs[..n]);
      FoldXBounds(p.x, logs[n].gs);
      FoldYBounds(p.y, logs[n].gs);
      if exists k :: 0 <= k < |logs| && k in dev.layers && dev.layers[k].shapes.Some? {
        if !(n in dev.layers && dev.layers[n].shapes.Some?) {
          var k :| 0 <= k < |logs| && k in dev.layers && dev.layers[k].shapes.Some?;
          assert 0 <= k < |logs[..n]|;
        }
      }
    }
  }
}
