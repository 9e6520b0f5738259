/** The layer state machine of util_shapes.py: classifying the shape records
    of a layer, retagging silos, and writing each feature with its colour,
    advancing the custom-colour cursor and growing the device dimensions. */
module UtilShapesLayer {
  import opened Wrappers
  import opened Text
  import opened UtilPov
  import opened UtilShapes

  // ---------------------------------------------------------------------
  // Classification (util_shapes.py:1196-1210)
  // ---------------------------------------------------------------------

  /** The layer type of a shape record: "Vacuum" for a vacuum material,
      otherwise the record's shape name. */
  function LayerType(s: ShapeRec): string
  {
    if s.material == "Vacuum" || s.material == "vacuum" then "Vacuum" else s.shape
  }

  predicate IsVacuum(s: ShapeRec)
  {
    s.material == "Vacuum" || s.material == "vacuum"
  }

  /** The classifying loop of create_device_layer: one entry per record, and
      a flag that some record is vacuum. */
  method ClassifyShapes(shapes: seq<ShapeRec>) returns (types: array<string>, hasSilo: bool)
    ensures fresh(types) && types.Length == |shapes|
    ensures forall i :: 0 <= i < |shapes| ==> types[i] == LayerType(shapes[i])
    ensures hasSilo <==> exists i :: 0 <= i < |shapes| && IsVacuum(shapes[i])
  {
    types := new string[|shapes|];
    hasSilo := false;
    for i := 0 to |shapes|
      invariant forall j :: 0 <= j < i ==> types[j] == LayerType(shapes[j])
      invariant hasSilo <==> exists j :: 0 <= j < i && IsVacuum(shapes[j])
    {
      if IsVacuum(shapes[i]) {
        types[i] := "Vacuum";
        hasSilo := true;
      } else {
        types[i] := shapes[i].shape;
      }
    }
  }

  /** Entry i is "Vacuum" exactly for a vacuum record or a record whose
      shape is itself named "Vacuum"; a vacuum record is always "Vacuum". */
  lemma LayerTypeVacuum(s: ShapeRec)
    ensures LayerType(s) == "Vacuum" <==> IsVacuum(s) || s.shape == "Vacuum"
    ensures !IsVacuum(s) ==> LayerType(s) == s.shape
  {
  }

  // ---------------------------------------------------------------------
  // check_for_false_silos (util_shapes.py:895-937)
  // ---------------------------------------------------------------------

  /** A hole that has no extent: a circle of radius 0, an ellipse or
      rectangle whose halfwidths entry is the list [0, 0], or a polygon with
      fewer than 3 vertices. */
  predicate Degenerate(s: ShapeRec)
  {
    || (s.shape == "circle" && s.radius == 0.0)
    || ((s.shape == "ellipse" || s.shape == "rectangle") && s.halfwidths == Listed([0.0, 0.0]))
    || (s.shape == "polygon" && |s.vertices| < 3)
  }

  /** Entry i becomes "silo" when it is solid, the next entry is vacuum and
      that next shape is not degenerate. */
  predicate MakesSilo(shapes: seq<ShapeRec>, ts: seq<string>, i: nat)
    requires |ts| == |shapes|
  {
    i + 1 < |ts| && ts[i] != "Vacuum" && ts[i + 1] == "Vacuum" && !Degenerate(shapes[i + 1])
  }

  /** The layer types after the false-silo pass. */
  function SiloTagged(shapes: seq<ShapeRec>, ts: seq<string>): (r: seq<string>)
    requires |ts| == |shapes|
    ensures |r| == |ts|
    ensures forall i :: 0 <= i < |ts| ==> r[i] == if MakesSilo(shapes, ts, i) then "silo" else ts[i]
  {
    seq(|ts|, i requires 0 <= i < |ts| => if MakesSilo(shapes, ts, i) then "silo" else ts[i])
  }

  /** check_for_false_silos: rewrites entries of `layerType` in place. Each
      pass reads entries i and i + 1 before either is rewritten, so the
      result is a function of the original entries. */
  method CheckForFalseSilos(shapes: seq<ShapeRec>, layerType: array<string>)
    requires layerType.Length == |shapes|
    modifies layerType
    ensures layerType[..] == SiloTagged(shapes, old(layerType[..]))
  {
    ghost var ts := layerType[..];
    if layerType.Length == 0 {
      return;
    }
    for i := 0 to layerType.Length - 1
      invariant forall j :: 0 <= j < i ==> layerType[j] == SiloTagged(shapes, ts)[j]
      invariant forall j :: i <= j < layerType.Length ==> layerType[j] == ts[j]
    {
      if layerType[i] != "Vacuum" && layerType[i + 1] == "Vacuum" {
        var next := shapes[i + 1];
        if next.shape == "circle" && next.radius == 0.0 {
        } else if (next.shape == "ellipse" || next.shape == "rectangle") && next.halfwidths == Listed([0.0, 0.0]) {
        } else if next.shape == "polygon" && |next.vertices| < 3 {
        } else {
          layerType[i] := "silo";
        }
      }
    }
    assert layerType[..] == SiloTagged(shapes, ts);
  }

  /** The pass keeps the length, never changes a "Vacuum" entry nor the last
      entry, and changes an entry only into "silo". */
  lemma SiloTaggedKeeps(shapes: seq<ShapeRec>, ts: seq<string>, i: nat)
    requires |ts| == |shapes| && i < |ts|
    ensures ts[i] == "Vacuum" ==> SiloTagged(shapes, ts)[i] == "Vacuum"
    ensures i == |ts| - 1 ==> SiloTagged(shapes, ts)[i] == ts[i]
    ensures SiloTagged(shapes, ts)[i] != ts[i] ==> SiloTagged(shapes, ts)[i] == "silo"
  {
  }

  /** A silo is made exactly for a solid entry followed by a non-degenerate
      vacuum; the hole after it stays "Vacuum". */
  lemma SiloTaggedIff(shapes: seq<ShapeRec>, ts: seq<string>, i: nat)
    requires |ts| == |shapes| && i < |ts| && ts[i] != "silo"
    ensures SiloTagged(shapes, ts)[i] == "silo" <==>
      i + 1 < |ts| && ts[i] != "Vacuum" && ts[i + 1] == "Vacuum" && !Degenerate(shapes[i + 1])
    ensures SiloTagged(shapes, ts)[i] == "silo" ==> SiloTagged(shapes, ts)[i + 1] == "Vacuum"
  {
  }

  // ---------------------------------------------------------------------
  // Feature geometry (util_shapes.py:596-892)
  // ---------------------------------------------------------------------

  /** A feature before its colour: the shape text, the accent-line text
      appended after the colour, the material, and the extent passed to
      update_device_dims (None when `halfwidths` was never bound). */
  datatype Geom = Geom(body: Text, accent: Text, material: string, extent: Option<XY>)

  /** The accent lines of a feature of the given kind, drawn from the top of
      the device `z0` over the feature's height. */
  function Accents(addLines: bool, kind: string, z0: real, end0: real, end1: real): Text
  {
    if addLines then [Accent(kind, z0, end1 - end0)] else []
  }

  function CircleGeom(s: ShapeRec, end0: real, end1: real, z0: real, addLines: bool): Geom
  {
    Geom([Lit("// Circular pillar\n\t")] + Cylinder(s.center, end0, end1, s.radius, false),
         Accents(addLines, "circle", z0, end0, end1), s.material, Some(XY(s.radius, s.radius)))
  }

  /** The ellipse writer reads the halfwidths with `.get`, which a list does
      not have. */
  function EllipseGeom(s: ShapeRec, end0: real, end1: real, z0: real, addLines: bool): Result<Geom>
  {
    match s.halfwidths
    case Listed(_) => Err(AttributeError)
    case Mapping(hx, hy) =>
      Ok(Geom([Lit("// Ellipse\n\t")] + Ellipse(s.center, end0, end1, XY(hx, hy), s.angle, false),
              Accents(addLines, "ellipse", z0, end0, end1), s.material, Some(XY(hx, hy))))
  }

  function RectangleGeom(s: ShapeRec, end0: real, end1: real, z0: real, addLines: bool): Result<Geom>
  {
    match s.halfwidths
    case Listed(_) => Err(AttributeError)
    case Mapping(hx, hy) =>
      Ok(Geom([Lit("// Rectangle\n\t")] + Rectangle(s.center, end0, end1, XY(hx, hy), s.angle, false),
              Accents(addLines, "rectangle", z0, end0, end1), s.material, Some(XY(hx, hy))))
  }

  function Abs(x: real): real
  {
    if x < 0.0 then -x else x
  }

  /** The polygon writer's running `x_max = max(abs(x_max), vertex[0])`
      over the first n vertices, and its y counterpart. */
  function XMaxOf(vs: seq<XY>, n: nat): real
    requires n <= |vs|
  {
    if n == 0 then 0.0 else Max(Abs(XMaxOf(vs, n - 1)), vs[n - 1].x)
  }

  function YMaxOf(vs: seq<XY>, n: nat): real
    requires n <= |vs|
  {
    if n == 0 then 0.0 else Max(Abs(YMaxOf(vs, n - 1)), vs[n - 1].y)
  }

  /** The running maximum starts at 0, so the `abs` never changes it: it is
      the largest of 0 and the vertices' x coordinates. */
  lemma {:induction false} XMaxBounds(vs: seq<XY>, n: nat)
    requires n <= |vs|
    ensures XMaxOf(vs, n) >= 0.0
    ensures forall i :: 0 <= i < n ==> XMaxOf(vs, n) >= vs[i].x
    ensures XMaxOf(vs, n) == 0.0 || exists i :: 0 <= i < n && XMaxOf(vs, n) == vs[i].x
  {
    if n > 0 {
      XMaxBounds(vs, n - 1);
      var m := XMaxOf(vs, n - 1);
      assert Abs(m) == m;
      if XMaxOf(vs, n) != 0.0 && XMaxOf(vs, n) != vs[n - 1].x {
        assert XMaxOf(vs, n) == m;
        var i :| 0 <= i < n - 1 && m == vs[i].x;
        assert XMaxOf(vs, n) == vs[i].x;
      }
    }
  }

  lemma {:induction false} YMaxBounds(vs: seq<XY>, n: nat)
    requires n <= |vs|
    ensures YMaxOf(vs, n) >= 0.0
    ensures forall i :: 0 <= i < n ==> YMaxOf(vs, n) >= vs[i].y
    ensures YMaxOf(vs, n) == 0.0 || exists i :: 0 <= i < n && YMaxOf(vs, n) == vs[i].y
  {
    if n > 0 {
      YMaxBounds(vs, n - 1);
      var m := YMaxOf(vs, n - 1);
      assert Abs(m) == m;
      if YMaxOf(vs, n) != 0.0 && YMaxOf(vs, n) != vs[n - 1].y {
        assert YMaxOf(vs, n) == m;
        var i :| 0 <= i < n - 1 && m == vs[i].y;
        assert YMaxOf(vs, n) == vs[i].y;
      }
    }
  }

  /** The polygon feature is drawn with angle 0 whatever the record's angle;
      an empty vertex list fails in create_polygon. */
  function PolygonGeom(s: ShapeRec, end0: real, end1: real, z0: real, addLines: bool): Result<Geom>
  {
    if s.vertices == [] then Err(IndexError)
    else
      Ok(Geom([Lit("// Polygon\n\t")] + PolygonText(s.center, end0, end1, Shift(s.vertices, s.center), z0, 0.0, false),
              Accents(addLines, "polygon", z0, end0, end1), s.material,
              Some(XY(XMaxOf(s.vertices, |s.vertices|), YMaxOf(s.vertices, |s.vertices|)))))
  }

  /** The vertex-collecting loop of the polygon writers: a fresh list of the
      record's vertices, with the running maxima of the coordinates. */
  method ReadVertices(points: seq<XY>) returns (vertices: array<XY>, xMax: real, yMax: real)
    ensures fresh(vertices) && vertices[..] == points
    ensures xMax == XMaxOf(points, |points|) && yMax == YMaxOf(points, |points|)
  {
    vertices := new XY[|points|];
    xMax, yMax := 0.0, 0.0;
    for i := 0 to |points|
      invariant forall j :: 0 <= j < i ==> vertices[j] == points[j]
      invariant xMax == XMaxOf(points, i) && yMax == YMaxOf(points, i)
    {
      vertices[i] := points[i];
      xMax := Max(Abs(xMax), points[i].x);
      yMax := Max(Abs(yMax), points[i].y);
    }
    assert vertices[..] == points;
  }

  // ---------------------------------------------------------------------
  // Colour, cursor and dimensions of a feature (util_shapes.py:645-660)
  // ---------------------------------------------------------------------

  /** The colour list a feature is painted with, custom_colors[c] standing
      in when the default colours are not used. */
  function Picked(defaults: map<string, ColorList>, material: string, useDefault: bool,
                  customs: seq<ColorList>, c: nat): Option<ColorList>
    requires c < |customs|
  {
    ChosenColor(defaults, material, useDefault, customs[c])
  }

  function PickedFootprint(defaults: map<string, ColorList>, material: string, useDefault: bool,
                           customs: seq<ColorList>, c: nat): set<ColorList>
  {
    if c < |customs| then ColorFootprint(ChosenColor(defaults, material, useDefault, customs[c])) else {}
  }

  /** The cursor moves on exactly when custom colours are in use. */
  function NextColor(c: nat, useDefault: bool): nat
  {
    if useDefault then c else c + 1
  }

  /** A feature's text once color_and_finish has run: the body, the
      pigment, the finish block (ior 1) and the closing brace. */
  function Painted(body: Text, col: seq<real>, finish: string, customFinish: string): Text
    requires |col| >= 5
  {
    body + Pigment(col) + FinishBlock(finish, 1.0, customFinish) + [Lit("}\n\n\t")]
  }

  /** What painting a feature does: read custom_colors[c], resolve the
      chosen colour list in place, then (on success) return the text with
      its accent lines and the next cursor, and grow dims by the extent. */
  twostate predicate FeatureEffect(g: Geom, dims: array<real>, defaults: map<string, ColorList>,
                                   useDefault: bool, customs: seq<ColorList>, c: nat, useFinish: string,
                                   customFinish: string, new r: Result<(Text, nat)>, col: seq<real>)
    reads dims, PickedFootprint(defaults, g.material, useDefault, customs, c)
  {
    if c >= |customs| then r == Err(IndexError) && unchanged(dims)
    else match Picked(defaults, g.material, useDefault, customs, c)
      case None => r == Err(KeyError(g.material)) && unchanged(dims)
      case Some(o) =>
        && o.rgbft == Resolved(old(o.rgbft), ResolveFinish(useFinish, g.material))
        && if |o.rgbft| < 5 then r == Err(IndexError) && unchanged(dims)
           else match g.extent
             case None => r == Err(NameError("halfwidths")) && unchanged(dims)
             case Some(e) =>
               && col == o.rgbft
               && r == Ok((Painted(g.body, col, ResolveFinish(useFinish, g.material), customFinish) + g.accent,
                           NextColor(c, useDefault)))
               && dims.Length == 3
               && dims[0] == Max(e.x, old(dims[0])) && dims[1] == Max(e.y, old(dims[1]))
               && dims[2] == old(dims[2])
  }

  /** With default colours a written feature is painted with the default
      list of `material`: `col` is what that list held, resolved with the
      material's finish. */
  twostate predicate PaintedDefault(defaults: map<string, ColorList>, material: string, useFinish: string,
                                    col: seq<real>)
    reads defaults.Values
  {
    material in defaults && col == Resolved(old(defaults[material].rgbft), ResolveFinish(useFinish, material))
  }

  /** The common tail of every feature writer: color_and_finish with
      custom_colors[c], the cursor step, the accent lines and the
      update_device_dims call with new_z = 0. */
  method FinishFeature(g: Geom, dims: array<real>, defaults: map<string, ColorList>, useDefault: bool,
                       customs: seq<ColorList>, c: nat, useFinish: string, customFinish: string)
    returns (r: Result<(Text, nat)>, ghost col: seq<real>)
    requires dims.Length == 3
    modifies dims, PickedFootprint(defaults, g.material, useDefault, customs, c)
    ensures FeatureEffect(g, dims, defaults, useDefault, customs, c, useFinish, customFinish, r, col)
    ensures dims[2] == old(dims[2])
    ensures r.Ok? ==> EntryWritten(Some(Ok(g)), r.value, col, c, useDefault, useFinish, customFinish)
    ensures r.Ok? ==> (dims[0], dims[1]) == Grow(Some(Ok(g)), old(dims[0]), old(dims[1]))
    ensures Repainted(PickedFootprint(defaults, g.material, useDefault, customs, c))
    ensures useDefault && Unshared(defaults) ==>
      DefaultsResolved(defaults, g.material, ResolveFinish(useFinish, g.material))
    ensures r.Ok? && useDefault ==> PaintedDefault(defaults, g.material, useFinish, col)
  {
    col := [];
    if c >= |customs| {
      return Err(IndexError), col;
    }
    var painted := ColorAndFinish(g.body, defaults, g.material, useDefault, customs[c], 1.0,
                                  useFinish, customFinish);
    if painted.Err? {
      return Err(painted.error), col;
    }
    var next := c;
    if !useDefault {
      next := c + 1;
    }
    var t := painted.value + g.accent;
    if g.extent.None? {
      return Err(NameError("halfwidths")), col;
    }
    col := Picked(defaults, g.material, useDefault, customs, c).value.rgbft;
    UpdateDeviceDims(dims, g.extent.value.x, g.extent.value.y, 0.0);
    r := Ok((t, next));
  }

  // ---------------------------------------------------------------------
  // The feature writers (util_shapes.py:596-892)
  // ---------------------------------------------------------------------

  /** write_circle_feature: a cylinder of the record's radius. */
  method WriteCircleFeature(shapes: seq<ShapeRec>, k: nat, dims: array<real>, end0: real, end1: real,
                            defaults: map<string, ColorList>, useDefault: bool, customs: seq<ColorList>,
                            c: nat, useFinish: string, customFinish: string, addLines: bool)
    returns (r: Result<(Text, nat)>, ghost col: seq<real>)
    requires k < |shapes| && dims.Length == 3
    modifies dims, PickedFootprint(defaults, shapes[k].material, useDefault, customs, c)
    ensures FeatureEffect(CircleGeom(shapes[k], end0, end1, old(dims[2]), addLines), dims, defaults,
                          useDefault, customs, c, useFinish, customFinish, r, col)
    ensures dims[2] == old(dims[2])
    ensures r.Ok? ==> EntryWritten(Some(Ok(CircleGeom(shapes[k], end0, end1, old(dims[2]), addLines))), r.value, col, c, useDefault, useFinish, customFinish)
    ensures r.Ok? ==> (dims[0], dims[1]) == Grow(Some(Ok(CircleGeom(shapes[k], end0, end1, old(dims[2]), addLines))), old(dims[0]), old(dims[1]))
    ensures Repainted(PickedFootprint(defaults, shapes[k].material, useDefault, customs, c))
    ensures useDefault && Unshared(defaults) ==>
      DefaultsResolved(defaults, shapes[k].material, ResolveFinish(useFinish, shapes[k].material))
    ensures r.Ok? && useDefault ==> PaintedDefault(defaults, shapes[k].material, useFinish, col)
  {
    var s := shapes[k];
    var body := [Lit("// Circular pillar\n\t")] + Cylinder(s.center, end0, end1, s.radius, false);
    var lines := Accents(addLines, "circle", dims[2], end0, end1);
    r, col := FinishFeature(Geom(body, lines, s.material, Some(XY(s.radius, s.radius))), dims, defaults,
                            useDefault, customs, c, useFinish, customFinish);
  }

  /** write_ellipse_feature: fails before any change when the halfwidths
      entry is a list. */
  method WriteEllipseFeature(shapes: seq<ShapeRec>, k: nat, dims: array<real>, end0: real, end1: real,
                             defaults: map<string, ColorList>, useDefault: bool, customs: seq<ColorList>,
                             c: nat, useFinish: string, customFinish: string, addLines: bool)
    returns (r: Result<(Text, nat)>, ghost col: seq<real>)
    requires k < |shapes| && dims.Length == 3
    modifies dims, PickedFootprint(defaults, shapes[k].material, useDefault, customs, c)
    ensures var g := EllipseGeom(shapes[k], end0, end1, old(dims[2]), addLines);
      && (g.Err? ==> r == Err(AttributeError) && unchanged(dims)
                     && unchanged(PickedFootprint(defaults, shapes[k].material, useDefault, customs, c)))
      && (g.Ok? ==> FeatureEffect(g.value, dims, defaults, useDefault, customs, c, useFinish, customFinish, r, col))
    ensures dims[2] == old(dims[2])
    ensures r.Ok? ==> EntryWritten(Some(EllipseGeom(shapes[k], end0, end1, old(dims[2]), addLines)), r.value, col, c, useDefault, useFinish, customFinish)
    ensures r.Ok? ==> (dims[0], dims[1]) == Grow(Some(EllipseGeom(shapes[k], end0, end1, old(dims[2]), addLines)), old(dims[0]), old(dims[1]))
    ensures Repainted(PickedFootprint(defaults, shapes[k].material, useDefault, customs, c))
    ensures useDefault && Unshared(defaults) ==>
      DefaultsResolved(defaults, shapes[k].material, ResolveFinish(useFinish, shapes[k].material))
    ensures r.Ok? && useDefault ==> PaintedDefault(defaults, shapes[k].material, useFinish, col)
  {
    col := [];
    var s := shapes[k];
    if s.halfwidths.Listed? {
      return Err(AttributeError), col;
    }
    var h := XY(s.halfwidths.hx, s.halfwidths.hy);
    var body := [Lit("// Ellipse\n\t")] + Ellipse(s.center, end0, end1, h, s.angle, false);
    var lines := Accents(addLines, "ellipse", dims[2], end0, end1);
    r, col := FinishFeature(Geom(body, lines, s.material, Some(h)), dims, defaults,
                            useDefault, customs, c, useFinish, customFinish);
  }

  /** write_rectangle_feature: same steps as the ellipse writer. */
  method WriteRectangleFeature(shapes: seq<ShapeRec>, k: nat, dims: array<real>, end0: real, end1: real,
                               defaults: map<string, ColorList>, useDefault: bool, customs: seq<ColorList>,
                               c: nat, useFinish: string, customFinish: string, addLines: bool)
    returns (r: Result<(Text, nat)>, ghost col: seq<real>)
    requires k < |shapes| && dims.Length == 3
    modifies dims, PickedFootprint(defaults, shapes[k].material, useDefault, customs, c)
    ensures var g := RectangleGeom(shapes[k], end0, end1, old(dims[2]), addLines);
      && (g.Err? ==> r == Err(AttributeError) && unchanged(dims)
                     && unchanged(PickedFootprint(defaults, shapes[k].material, useDefault, customs, c)))
      && (g.Ok? ==> FeatureEffect(g.value, dims, defaults, useDefault, customs, c, useFinish, customFinish, r, col))
    ensures dims[2] == old(dims[2])
    ensures r.Ok? ==> EntryWritten(Some(RectangleGeom(shapes[k], end0, end1, old(dims[2]), addLines)), r.value, col, c, useDefault, useFinish, customFinish)
    ensures r.Ok? ==> (dims[0], dims[1]) == Grow(Some(RectangleGeom(shapes[k], end0, end1, old(dims[2]), addLines)), old(dims[0]), old(dims[1]))
    ensures Repainted(PickedFootprint(defaults, shapes[k].material, useDefault, customs, c))
    ensures useDefault && Unshared(defaults) ==>
      DefaultsResolved(defaults, shapes[k].material, ResolveFinish(useFinish, shapes[k].material))
    ensures r.Ok? && useDefault ==> PaintedDefault(defaults, shapes[k].material, useFinish, col)
  {
    col := [];
    var s := shapes[k];
    if s.halfwidths.Listed? {
      return Err(AttributeError), col;
    }
    var h := XY(s.halfwidths.hx, s.halfwidths.hy);
    var body := [Lit("// Rectangle\n\t")] + Rectangle(s.center, end0, end1, h, s.angle, false);
    var lines := Accents(addLines, "rectangle", dims[2], end0, end1);
    r, col := FinishFeature(Geom(body, lines, s.material, Some(h)), dims, defaults,
                            useDefault, customs, c, useFinish, customFinish);
  }

  /** The geometry half of write_polygon_feature: collect the vertices with
      their running maxima and shift them in create_polygon (angle 0). */
  method DrawPolygon(s: ShapeRec, dims: array<real>, end0: real, end1: real, addLines: bool)
    returns (r: Result<Geom>)
    requires dims.Length == 3
    ensures r == PolygonGeom(s, end0, end1, dims[2], addLines)
  {
    var vertices, xMax, yMax := ReadVertices(s.vertices);
    var drawn := CreatePolygon(s.center, end0, end1, vertices, dims, 0.0, false);
    if drawn.Err? {
      return Err(drawn.error);
    }
    var body := [Lit("// Polygon\n\t")] + drawn.value;
    var lines := Accents(addLines, "polygon", dims[2], end0, end1);
    r := Ok(Geom(body, lines, s.material, Some(XY(xMax, yMax))));
  }

  /** write_polygon_feature: the polygon geometry, painted. */
  method WritePolygonFeature(shapes: seq<ShapeRec>, k: nat, dims: array<real>, end0: real, end1: real,
                             defaults: map<string, ColorList>, useDefault: bool, customs: seq<ColorList>,
                             c: nat, useFinish: string, customFinish: string, addLines: bool)
    returns (r: Result<(Text, nat)>, ghost col: seq<real>)
    requires k < |shapes| && dims.Length == 3
    modifies dims, PickedFootprint(defaults, shapes[k].material, useDefault, customs, c)
    ensures var g := PolygonGeom(shapes[k], end0, end1, old(dims[2]), addLines);
      && (g.Err? ==> r == Err(IndexError) && unchanged(dims)
                     && unchanged(PickedFootprint(defaults, shapes[k].material, useDefault, customs, c)))
      && (g.Ok? ==> FeatureEffect(g.value, dims, defaults, useDefault, customs, c, useFinish, customFinish, r, col))
    ensures dims[2] == old(dims[2])
    ensures r.Ok? ==> EntryWritten(Some(PolygonGeom(shapes[k], end0, end1, old(dims[2]), addLines)), r.value, col, c, useDefault, useFinish, customFinish)
    ensures r.Ok? ==> (dims[0], dims[1]) == Grow(Some(PolygonGeom(shapes[k], end0, end1, old(dims[2]), addLines)), old(dims[0]), old(dims[1]))
    ensures Repainted(PickedFootprint(defaults, shapes[k].material, useDefault, customs, c))
    ensures useDefault && Unshared(defaults) ==>
      DefaultsResolved(defaults, shapes[k].material, ResolveFinish(useFinish, shapes[k].material))
    ensures r.Ok? && useDefault ==> PaintedDefault(defaults, shapes[k].material, useFinish, col)
  {
    col := [];
    var g := DrawPolygon(shapes[k], dims, end0, end1, addLines);
    if g.Err? {
      return Err(g.error), col;
    }
    r, col := FinishFeature(g.value, dims, defaults, useDefault, customs, c, useFinish, customFinish);
  }

  // ---------------------------------------------------------------------
  // write_silo_feature (util_shapes.py:940-1146)
  // ---------------------------------------------------------------------

  function Digit(d: nat): char
    requires d < 10
  {
    "0123456789"[d]
  }

  /** Python's `str` of a natural number. */
  function NatStr(n: nat): string
  {
    if n < 10 then [Digit(n)] else NatStr(n / 10) + [Digit(n % 10)]
  }

  /** The silo after its outer shape: the text so far, the bound
      halfwidths, the bound shape name, and the index `k` the holes start
      after (the polygon branch rebinds it to the last vertex index). */
  datatype Outer = Outer(text: Text, halfwidths: Option<XY>, shape: Option<string>, k: nat)

  const SiloHead: Text := [Lit("// Silo\n\t"), Lit("difference \n\t\t{\n\t\t")]

  function SiloOuter(s: ShapeRec, k: nat, end0: real, end1: real, z0: real): Result<Outer>
  {
    if s.shape == "circle" then
      Ok(Outer(SiloHead + Cylinder(s.center, end0, end1, s.radius, true), Some(XY(s.radius, s.radius)),
               Some("circle"), k))
    else if s.shape == "ellipse" || s.shape == "rectangle" then
      match s.halfwidths
      case Listed(_) => Err(AttributeError)
      case Mapping(hx, hy) =>
        var drawn := if s.shape == "ellipse" then Ellipse(s.center, end0, end1, XY(hx, hy), s.angle, true)
                     else Rectangle(s.center, end0, end1, XY(hx, hy), s.angle, true);
        Ok(Outer(SiloHead + drawn, Some(XY(hx, hy)), Some(s.shape), k))
    else if s.shape == "polygon" then
      if s.vertices == [] then Err(IndexError)
      else Ok(Outer(SiloHead + PolygonText(s.center, end0, end1, Shift(s.vertices, s.center), z0, s.angle, true),
                    None, Some("polygon"), |s.vertices| - 1))
    else Ok(Outer(SiloHead, None, None, k))
  }

  /** The hole loop's state: the text, the bound halfwidths and shape
      name, whether `dims_inner` is bound, and the accent lines. */
  datatype HoleState = HoleState(text: Text, halfwidths: Option<XY>, shape: Option<string>,
                                 innerBound: bool, lines: Text)

  /** One pass of the hole loop for entry j. Circle holes use their own
      record with the ends moved inwards by 0.001; ellipse and rectangle
      holes read the record at `k`; a polygon hole hits the stray `i`. */
  function HoleStep(shapes: seq<ShapeRec>, k: nat, j: nat, end0: real, end1: real, z0: real,
                    addLines: bool, st: HoleState): Result<HoleState>
    requires j < |shapes|
  {
    var h := shapes[j];
    var drawn: Result<HoleState> :=
      if h.shape == "circle" then
        Ok(st.(text := st.text + Cylinder(h.center, end0 + 0.001, end1 - 0.001, h.radius, true),
               shape := Some("circle"), innerBound := true))
      else if h.shape == "ellipse" || h.shape == "rectangle" then
        if k >= |shapes| then Err(KeyError(NatStr(k)))
        else match shapes[k].halfwidths
          case Listed(_) => Err(AttributeError)
          case Mapping(hx, hy) =>
            var o := shapes[k];
            var cut := if h.shape == "ellipse" then Ellipse(o.center, end0 + 0.001, end1 - 0.001, XY(hx, hy), o.angle, true)
                       else Rectangle(o.center, end0 + 0.001, end1 - 0.001, XY(hx, hy), o.angle, true);
            Ok(st.(text := st.text + cut, halfwidths := Some(XY(hx, hy)), shape := Some(h.shape), innerBound := true))
      else if h.shape == "polygon" then Err(NameError("i"))
      else Ok(st);
    match drawn
    case Err(e) => Err(e)
    case Ok(s2) =>
      if !addLines then Ok(s2)
      else if s2.shape.None? then Err(NameError("shape"))
      else if !s2.innerBound then Err(NameError("dims_inner"))
      else Ok(s2.(lines := s2.lines + [Accent(s2.shape.value, z0, end1 - end0)]))
  }

  /** The hole loop from entry j on: it runs while the entry is "Vacuum". */
  function SiloHoles(shapes: seq<ShapeRec>, tags: seq<string>, k: nat, j: nat, end0: real, end1: real,
                     z0: real, addLines: bool, st: HoleState): Result<HoleState>
    requires |tags| == |shapes|
    decreases |shapes| - j
  {
    if j >= |shapes| || tags[j] != "Vacuum" then Ok(st)
    else match HoleStep(shapes, k, j, end0, end1, z0, addLines, st)
      case Err(e) => Err(e)
      case Ok(next) => SiloHoles(shapes, tags, k, j + 1, end0, end1, z0, addLines, next)
  }

  /** The geometry of the silo at entry k: outer shape, accent line for it,
      then the holes. */
  function SiloGeom(shapes: seq<ShapeRec>, tags: seq<string>, k: nat, end0: real, end1: real,
                    z0: real, addLines: bool): Result<Geom>
    requires k < |shapes| && |tags| == |shapes|
  {
    SiloAfter(shapes, tags, shapes[k].material, SiloOuter(shapes[k], k, end0, end1, z0), end0, end1, z0, addLines)
  }

  /** The silo once its outer shape is drawn: its accent line, then the
      holes after the index the outer shape leaves. */
  function SiloAfter(shapes: seq<ShapeRec>, tags: seq<string>, material: string, outer: Result<Outer>,
                     end0: real, end1: real, z0: real, addLines: bool): Result<Geom>
    requires |tags| == |shapes|
  {
    match outer
    case Err(e) => Err(e)
    case Ok(o) =>
      if addLines && o.shape.None? then Err(NameError("shape"))
      else
        var lines := if addLines then [Accent(o.shape.value, z0, end1 - end0)] else [];
        match SiloHoles(shapes, tags, o.k, o.k + 1, end0, end1, z0, addLines,
                        HoleState(o.text, o.halfwidths, o.shape, false, lines))
        case Err(e) => Err(e)
        case Ok(st) => Ok(Geom(st.text, st.lines, material, st.halfwidths))
  }

  /** The outer-shape branch of write_silo_feature. */
  method DrawSiloOuter(s: ShapeRec, k: nat, dims: array<real>, end0: real, end1: real)
    returns (r: Result<Outer>)
    requires dims.Length == 3
    ensures r == SiloOuter(s, k, end0, end1, dims[2])
  {
    var text := SiloHead;
    if s.shape == "circle" {
      text := text + Cylinder(s.center, end0, end1, s.radius, true);
      r := Ok(Outer(text, Some(XY(s.radius, s.radius)), Some("circle"), k));
    } else if s.shape == "ellipse" || s.shape == "rectangle" {
      if s.halfwidths.Listed? {
        return Err(AttributeError);
      }
      var halfwidths := XY(s.halfwidths.hx, s.halfwidths.hy);
      if s.shape == "ellipse" {
        text := text + Ellipse(s.center, end0, end1, halfwidths, s.angle, true);
      } else {
        text := text + Rectangle(s.center, end0, end1, halfwidths, s.angle, true);
      }
      r := Ok(Outer(text, Some(halfwidths), Some(s.shape), k));
    } else if s.shape == "polygon" {
      var kk := k;
      var vertices, _, _ := ReadVertices(s.vertices);
      if |s.vertices| > 0 {
        kk := |s.vertices| - 1;
      }
      var drawn := CreatePolygon(s.center, end0, end1, vertices, dims, s.angle, true);
      if drawn.Err? {
        return Err(drawn.error);
      }
      r := Ok(Outer(text + drawn.value, None, Some("polygon"), kk));
    } else {
      r := Ok(Outer(text, None, None, k));
    }
  }

  /** The hole loop of write_silo_feature, from entry k + 1 while the
      layer type is "Vacuum". */
  method CutSiloHoles(shapes: seq<ShapeRec>, layerType: array<string>, k: nat, end0: real, end1: real,
                      z0: real, addLines: bool, start: HoleState)
    returns (r: Result<HoleState>)
    requires layerType.Length == |shapes|
    ensures r == SiloHoles(shapes, layerType[..], k, k + 1, end0, end1, z0, addLines, start)
  {
    var st := start;
    var j := k + 1;
    while j < |shapes| && layerType[j] == "Vacuum"
      invariant SiloHoles(shapes, layerType[..], k, j, end0, end1, z0, addLines, st)
             == SiloHoles(shapes, layerType[..], k, k + 1, end0, end1, z0, addLines, start)
      decreases |shapes| - j
    {
      var h := shapes[j];
      var next := st;
      if h.shape == "circle" {
        next := next.(text := next.text + Cylinder(h.center, end0 + 0.001, end1 - 0.001, h.radius, true),
                      shape := Some("circle"), innerBound := true);
      } else if h.shape == "ellipse" || h.shape == "rectangle" {
        if k >= |shapes| {
          return Err(KeyError(NatStr(k)));
        }
        var o := shapes[k];
        if o.halfwidths.Listed? {
          return Err(AttributeError);
        }
        var halfwidths := XY(o.halfwidths.hx, o.halfwidths.hy);
        var cut: Text;
        if h.shape == "ellipse" {
          cut := Ellipse(o.center, end0 + 0.001, end1 - 0.001, halfwidths, o.angle, true);
        } else {
          cut := Rectangle(o.center, end0 + 0.001, end1 - 0.001, halfwidths, o.angle, true);
        }
        next := next.(text := next.text + cut, halfwidths := Some(halfwidths), shape := Some(h.shape),
                      innerBound := true);
      } else if h.shape == "polygon" {
        return Err(NameError("i"));
      }
      if addLines {
        if next.shape.None? {
          return Err(NameError("shape"));
        }
        if !next.innerBound {
          return Err(NameError("dims_inner"));
        }
        next := next.(lines := next.lines + [Accent(next.shape.value, z0, end1 - end0)]);
      }
      assert HoleStep(shapes, k, j, end0, end1, z0, addLines, st) == Ok(next);
      st := next;
      j := j + 1;
    }
    r := Ok(st);
  }

  /** The geometry half of write_silo_feature: outer shape, its accent
      line, then the holes. */
  method DrawSilo(shapes: seq<ShapeRec>, k: nat, layerType: array<string>, dims: array<real>,
                  end0: real, end1: real, addLines: bool)
    returns (r: Result<Geom>)
    requires k < |shapes| && layerType.Length == |shapes| && dims.Length == 3
    ensures r == SiloGeom(shapes, layerType[..], k, end0, end1, dims[2], addLines)
  {
    var material := shapes[k].material;
    var outer := DrawSiloOuter(shapes[k], k, dims, end0, end1);
    if outer.Err? {
      return Err(outer.error);
    }
    var o := outer.value;
    var lines: Text := [];
    if addLines {
      if o.shape.None? {
        return Err(NameError("shape"));
      }
      lines := [Accent(o.shape.value, dims[2], end1 - end0)];
    }
    var holes := CutSiloHoles(shapes, layerType, o.k, end0, end1, dims[2], addLines,
                              HoleState(o.text, o.halfwidths, o.shape, false, lines));
    if holes.Err? {
      return Err(holes.error);
    }
    var st := holes.value;
    r := Ok(Geom(st.text, st.lines, material, st.halfwidths));
  }

  // ---------------------------------------------------------------------
  // What the silo geometry means
  // ---------------------------------------------------------------------

  /** The index the hole loop starts at: the entry after the silo's own,
      except after a polygon with vertices, whose vertex loop leaves `k` at
      its last vertex index. */
  function HoleStart(s: ShapeRec, k: nat): nat
  {
    if s.shape == "polygon" && s.vertices != [] then |s.vertices| else k + 1
  }

  /** The end of the run of "Vacuum" tags from j: the first index at or
      after j whose tag is something else, or the end of the list. */
  function RunEnd(tags: seq<string>, j: nat): (e: nat)
    ensures j <= e && (j <= |tags| ==> e <= |tags|)
    decreases |tags| - j
  {
    if j >= |tags| || tags[j] != "Vacuum" then j else RunEnd(tags, j + 1)
  }

  /** The run is maximal: every tag in it is "Vacuum", and it stops at the
      first other tag or at the end. */
  lemma {:induction false} RunMaximal(tags: seq<string>, j: nat)
    ensures forall i :: j <= i < RunEnd(tags, j) ==> tags[i] == "Vacuum"
    ensures RunEnd(tags, j) < |tags| ==> tags[RunEnd(tags, j)] != "Vacuum"
    ensures j < |tags| && tags[j] == "Vacuum" ==> RunEnd(tags, j) > j
    decreases |tags| - j
  {
    if j < |tags| && tags[j] == "Vacuum" {
      RunMaximal(tags, j + 1);
    }
  }

  /** The outer shape: an AttributeError for a listed halfwidths entry of an
      ellipse or rectangle, an IndexError for a polygon without vertices,
      otherwise the silo head followed by the shape, its kind and its
      halfwidths bound for the supported shapes, and the holes starting at
      HoleStart. */
  lemma SiloOuterCases(s: ShapeRec, k: nat, end0: real, end1: real, z0: real)
    ensures var o := SiloOuter(s, k, end0, end1, z0);
      && (o.Err? <==> ((s.shape == "ellipse" || s.shape == "rectangle") && s.halfwidths.Listed?)
                      || (s.shape == "polygon" && s.vertices == []))
      && (o.Err? ==> o.error == if s.shape == "polygon" then IndexError else AttributeError)
      && (o.Ok? ==>
            && |o.value.text| >= 2 && o.value.text[..2] == SiloHead
            && o.value.k + 1 == HoleStart(s, k)
            && (o.value.shape.Some? <==> s.shape in {"circle", "ellipse", "rectangle", "polygon"})
            && (o.value.shape.Some? ==> o.value.shape.value == s.shape)
            && (s.shape == "circle" ==> o.value.halfwidths == Some(XY(s.radius, s.radius)))
            && ((s.shape == "ellipse" || s.shape == "rectangle") ==>
                  o.value.halfwidths == Some(XY(s.halfwidths.hx, s.halfwidths.hy)))
            && (!(s.shape in {"circle", "ellipse", "rectangle"}) ==> o.value.halfwidths.None?))
  {
    var o := SiloOuter(s, k, end0, end1, z0);
    if o.Ok? {
      var rest := o.value.text[2..];
      assert o.value.text == SiloHead + rest;
    }
  }

  /** The hole loop reads only the entries of the run it consumes, the
      record at `k` and the number of entries: two layers that agree on
      those give the same result. */
  lemma {:induction false} SiloHolesFrame(shapes: seq<ShapeRec>, tags: seq<string>,
                                          shapes2: seq<ShapeRec>, tags2: seq<string>, k: nat, j: nat,
                                          end0: real, end1: real, z0: real, addLines: bool, st: HoleState)
    requires |tags| == |shapes| && |shapes2| == |shapes| && |tags2| == |tags|
    requires forall i :: j <= i < RunEnd(tags, j) ==> shapes2[i] == shapes[i] && tags2[i] == tags[i]
    requires RunEnd(tags, j) < |tags| ==> tags2[RunEnd(tags, j)] != "Vacuum"
    requires k < |shapes| ==> shapes2[k] == shapes[k]
    ensures SiloHoles(shapes2, tags2, k, j, end0, end1, z0, addLines, st)
         == SiloHoles(shapes, tags, k, j, end0, end1, z0, addLines, st)
    decreases |shapes| - j
  {
    RunMaximal(tags, j);
    if j < |shapes| && tags[j] == "Vacuum" {
      assert shapes2[j] == shapes[j] && tags2[j] == "Vacuum";
      assert HoleStep(shapes2, k, j, end0, end1, z0, addLines, st)
          == HoleStep(shapes, k, j, end0, end1, z0, addLines, st);
      match HoleStep(shapes, k, j, end0, end1, z0, addLines, st)
      case Err(_) =>
      case Ok(next) =>
        SiloHolesFrame(shapes, tags, shapes2, tags2, k, j + 1, end0, end1, z0, addLines, next);
    }
  }

  /** The cylinders cut for circle holes j .. e - 1, each running from
      end0 + 0.001 to end1 - 0.001, past both faces of the silo. */
  function HolePieces(shapes: seq<ShapeRec>, j: nat, e: nat, end0: real, end1: real): seq<Text>
    requires j <= e <= |shapes|
  {
    seq(e - j, i requires 0 <= i < e - j =>
      Cylinder(shapes[j + i].center, end0 + 0.001, end1 - 0.001, shapes[j + i].radius, true))
  }

  function HoleCylinders(shapes: seq<ShapeRec>, j: nat, e: nat, end0: real, end1: real): Text
    requires j <= e <= |shapes|
  {
    Join(HolePieces(shapes, j, e, end0, end1))
  }

  lemma HoleCylindersStep(shapes: seq<ShapeRec>, j: nat, e: nat, end0: real, end1: real)
    requires j < e <= |shapes|
    ensures HoleCylinders(shapes, j, e, end0, end1)
         == Cylinder(shapes[j].center, end0 + 0.001, end1 - 0.001, shapes[j].radius, true)
            + HoleCylinders(shapes, j + 1, e, end0, end1)
  {
    var ps := HolePieces(shapes, j, e, end0, end1);
    JoinCons(ps);
    assert ps[1..] == HolePieces(shapes, j + 1, e, end0, end1);
  }

  /** Without accent lines, a run of circle holes always succeeds, and cuts
      one cylinder per entry of the run, in order. */
  lemma {:induction false} CircleHoles(shapes: seq<ShapeRec>, tags: seq<string>, k: nat, j: nat,
                                       end0: real, end1: real, z0: real, st: HoleState)
    requires |tags| == |shapes| && j <= |shapes|
    requires forall i :: j <= i < RunEnd(tags, j) ==> shapes[i].shape == "circle"
    ensures var e := RunEnd(tags, j);
      SiloHoles(shapes, tags, k, j, end0, end1, z0, false, st)
      == Ok(st.(text := st.text + HoleCylinders(shapes, j, e, end0, end1),
                shape := if e > j then Some("circle") else st.shape,
                innerBound := st.innerBound || e > j))
    decreases |shapes| - j
  {
    RunMaximal(tags, j);
    var e := RunEnd(tags, j);
    if j < |shapes| && tags[j] == "Vacuum" {
      var h := shapes[j];
      var cyl := Cylinder(h.center, end0 + 0.001, end1 - 0.001, h.radius, true);
      var next := st.(text := st.text + cyl, shape := Some("circle"), innerBound := true);
      assert HoleStep(shapes, k, j, end0, end1, z0, false, st) == Ok(next);
      assert RunEnd(tags, j + 1) == e;
      CircleHoles(shapes, tags, k, j + 1, end0, end1, z0, next);
      HoleCylindersStep(shapes, j, e, end0, end1);
      assert st.text + cyl + HoleCylinders(shapes, j + 1, e, end0, end1)
          == st.text + HoleCylinders(shapes, j, e, end0, end1);
    } else {
      assert HolePieces(shapes, j, e, end0, end1) == [];
      assert st.text + HoleCylinders(shapes, j, e, end0, end1) == st.text;
    }
  }

  /** The run's holes take 19 tokens each. */
  lemma HoleCylindersLength(shapes: seq<ShapeRec>, j: nat, e: nat, end0: real, end1: real)
    requires j <= e <= |shapes|
    ensures |HoleCylinders(shapes, j, e, end0, end1)| == 19 * (e - j)
  {
    var ps := HolePieces(shapes, j, e, end0, end1);
    forall i | 0 <= i < |ps|
      ensures |ps[i]| == 19
    {
      CylinderParts(shapes[j + i].center, end0 + 0.001, end1 - 0.001, shapes[j + i].radius, true);
    }
    JoinLength(ps, 19);
  }

  /** Hole i of the run is the cylinder of record j + i, between
      end0 + 0.001 and end1 - 0.001. */
  lemma HoleCylindersAt(shapes: seq<ShapeRec>, j: nat, e: nat, end0: real, end1: real, i: nat)
    requires j + i < e <= |shapes|
    ensures 19 * i + 19 <= |HoleCylinders(shapes, j, e, end0, end1)|
    ensures HoleCylinders(shapes, j, e, end0, end1)[19 * i .. 19 * i + 19]
         == Cylinder(shapes[j + i].center, end0 + 0.001, end1 - 0.001, shapes[j + i].radius, true)
  {
    var ps := HolePieces(shapes, j, e, end0, end1);
    forall k | 0 <= k < |ps|
      ensures |ps[k]| == 19
    {
      var h := shapes[j + k];
      CylinderParts(h.center, end0 + 0.001, end1 - 0.001, h.radius, true);
    }
    JoinAt(ps, 19, i);
  }

  /** A circle silo without accent lines whose run holds only circles: the
      outer cylinder between the layer's ends, then one hole cylinder per
      entry of the run, with the outer radius as its halfwidths. */
  lemma CircleSilo(shapes: seq<ShapeRec>, tags: seq<string>, k: nat, end0: real, end1: real, z0: real)
    requires k < |shapes| && |tags| == |shapes| && shapes[k].shape == "circle"
    requires forall i :: k + 1 <= i < RunEnd(tags, k + 1) ==> shapes[i].shape == "circle"
    ensures var s := shapes[k];
      SiloGeom(shapes, tags, k, end0, end1, z0, false)
      == Ok(Geom(SiloHead + Cylinder(s.center, end0, end1, s.radius, true)
                 + HoleCylinders(shapes, k + 1, RunEnd(tags, k + 1), end0, end1),
                 [], s.material, Some(XY(s.radius, s.radius))))
  {
    var s := shapes[k];
    var outer := SiloHead + Cylinder(s.center, end0, end1, s.radius, true);
    CircleHoles(shapes, tags, k, k + 1, end0, end1, z0,
                HoleState(outer, Some(XY(s.radius, s.radius)), Some("circle"), false, []));
  }

  /** write_silo_feature: one merged difference of the outer shape and the
      vacuum holes that follow it, painted like any other feature. */
  method WriteSiloFeature(shapes: seq<ShapeRec>, k: nat, layerType: array<string>, dims: array<real>,
                          end0: real, end1: real, defaults: map<string, ColorList>, useDefault: bool,
                          customs: seq<ColorList>, c: nat, useFinish: string, customFinish: string,
                          addLines: bool)
    returns (r: Result<(Text, nat)>, ghost col: seq<real>)
    requires k < |shapes| && layerType.Length == |shapes| && dims.Length == 3
    modifies dims, PickedFootprint(defaults, shapes[k].material, useDefault, customs, c)
    ensures var g := SiloGeom(shapes, layerType[..], k, end0, end1, old(dims[2]), addLines);
      && (g.Err? ==> r == Err(g.error) && unchanged(dims)
                     && unchanged(PickedFootprint(defaults, shapes[k].material, useDefault, customs, c)))
      && (g.Ok? ==> FeatureEffect(g.value, dims, defaults, useDefault, customs, c, useFinish, customFinish, r, col))
    ensures dims[2] == old(dims[2])
    ensures r.Ok? ==> EntryWritten(Some(SiloGeom(shapes, layerType[..], k, end0, end1, old(dims[2]), addLines)), r.value, col, c, useDefault, useFinish, customFinish)
    ensures r.Ok? ==> (dims[0], dims[1]) == Grow(Some(SiloGeom(shapes, layerType[..], k, end0, end1, old(dims[2]), addLines)), old(dims[0]), old(dims[1]))
    ensures Repainted(PickedFootprint(defaults, shapes[k].material, useDefault, customs, c))
    ensures useDefault && Unshared(defaults) ==>
      DefaultsResolved(defaults, shapes[k].material, ResolveFinish(useFinish, shapes[k].material))
    ensures r.Ok? && useDefault ==> PaintedDefault(defaults, shapes[k].material, useFinish, col)
  {
    col := [];
    var g := DrawSilo(shapes, k, layerType, dims, end0, end1, addLines);
    if g.Err? {
      return Err(g.error), col;
    }
    r, col := FinishFeature(g.value, dims, defaults, useDefault, customs, c, useFinish, customFinish);
  }

  // ---------------------------------------------------------------------
  // create_device_layer (util_shapes.py:1149-1261)
  // ---------------------------------------------------------------------

  /** The layer types create_device_layer dispatches on: the classification,
      retagged by the false-silo pass when some record is vacuum. */
  function Classified(shapes: seq<ShapeRec>): (ts: seq<string>)
    ensures |ts| == |shapes|
  {
    seq(|shapes|, i requires 0 <= i < |shapes| => LayerType(shapes[i]))
  }

  function LayerTags(shapes: seq<ShapeRec>): (ts: seq<string>)
    ensures |ts| == |shapes|
  {
    if exists i :: 0 <= i < |shapes| && IsVacuum(shapes[i]) then SiloTagged(shapes, Classified(shapes))
    else Classified(shapes)
  }

  /** The feature entry k writes: None for "Vacuum" and for an unsupported
      type (a warning only), otherwise the writer's geometry. */
  function FeatureAt(shapes: seq<ShapeRec>, tags: seq<string>, k: nat, end0: real, end1: real, z0: real,
                     addLines: bool): Option<Result<Geom>>
    requires k < |shapes| && |tags| == |shapes|
  {
    var t := tags[k];
    if t == "circle" then Some(Ok(CircleGeom(shapes[k], end0, end1, z0, addLines)))
    else if t == "silo" then Some(SiloGeom(shapes, tags, k, end0, end1, z0, addLines))
    else if t == "ellipse" then Some(EllipseGeom(shapes[k], end0, end1, z0, addLines))
    else if t == "rectangle" then Some(RectangleGeom(shapes[k], end0, end1, z0, addLines))
    else if t == "polygon" then Some(PolygonGeom(shapes[k], end0, end1, z0, addLines))
    else None
  }

  predicate IsFeature(t: string)
  {
    t == "circle" || t == "silo" || t == "ellipse" || t == "rectangle" || t == "polygon"
  }

  /** fs lists what each entry of the layer writes. */
  predicate FeaturesOf(fs: seq<Option<Result<Geom>>>, shapes: seq<ShapeRec>, tags: seq<string>, end0: real,
                       end1: real, z0: real, addLines: bool)
    requires |tags| == |shapes|
  {
    && |fs| == |shapes|
    && forall k {:trigger FeatureAt(shapes, tags, k, end0, end1, z0, addLines)} :: 0 <= k < |shapes| ==>
         fs[k] == FeatureAt(shapes, tags, k, end0, end1, z0, addLines)
  }

  /** Every layer has its list of entries ... */
  lemma LayerFeatures(shapes: seq<ShapeRec>, tags: seq<string>, end0: real, end1: real, z0: real,
                      addLines: bool)
    returns (fs: seq<Option<Result<Geom>>>)
    requires |tags| == |shapes|
    ensures FeaturesOf(fs, shapes, tags, end0, end1, z0, addLines)
  {
    fs := seq(|shapes|, k requires 0 <= k < |shapes| => FeatureAt(shapes, tags, k, end0, end1, z0, addLines));
  }

  /** ... and only one. */
  lemma FeaturesUnique(fs: seq<Option<Result<Geom>>>, fs': seq<Option<Result<Geom>>>, shapes: seq<ShapeRec>,
                       tags: seq<string>, end0: real, end1: real, z0: real, addLines: bool)
    requires |tags| == |shapes|
    requires FeaturesOf(fs, shapes, tags, end0, end1, z0, addLines)
    requires FeaturesOf(fs', shapes, tags, end0, end1, z0, addLines)
    ensures fs == fs'
  {
    forall k | 0 <= k < |fs|
      ensures fs[k] == fs'[k]
    {
      assert fs[k] == FeatureAt(shapes, tags, k, end0, end1, z0, addLines);
    }
  }

  /** The geometries of the written features, in order, or the first
      geometry error. */
  function Collect(fs: seq<Option<Result<Geom>>>): Result<seq<Geom>>
  {
    if fs == [] then Ok([])
    else match Collect(fs[..|fs| - 1])
      case Err(e) => Err(e)
      case Ok(gs) =>
        match fs[|fs| - 1]
        case None => Ok(gs)
        case Some(Err(e)) => Err(e)
        case Some(Ok(g)) => Ok(gs + [g])
  }

  /** The number of feature entries among the first n. */
  function Emitted(tags: seq<string>, n: nat): nat
    requires n <= |tags|
  {
    if n == 0 then 0 else Emitted(tags, n - 1) + (if IsFeature(tags[n - 1]) then 1 else 0)
  }

  /** A successful layer has one geometry per feature entry: "Vacuum"
      entries and unsupported types emit nothing. */
  lemma {:induction false} CollectCount(fs: seq<Option<Result<Geom>>>, shapes: seq<ShapeRec>, tags: seq<string>,
                                        n: nat, end0: real, end1: real, z0: real, addLines: bool, gs: seq<Geom>)
    requires n <= |shapes| && |tags| == |shapes|
    requires FeaturesOf(fs, shapes, tags, end0, end1, z0, addLines)
    requires Collect(fs[..n]) == Ok(gs)
    ensures |gs| == Emitted(tags, n)
  {
    if n > 0 {
      assert fs[..n][..n - 1] == fs[..n - 1];
      var prev := Collect(fs[..n - 1]);
      assert prev.Ok?;
      CollectCount(fs, shapes, tags, n - 1, end0, end1, z0, addLines, prev.value);
      assert fs[..n][n - 1] == FeatureAt(shapes, tags, n - 1, end0, end1, z0, addLines);
    }
  }

  /** The painted features of a layer, in order. */
  function PaintedAll(gs: seq<Geom>, cols: seq<seq<real>>, useFinish: string, customFinish: string): Text
    requires |cols| == |gs| && forall i :: 0 <= i < |cols| ==> |cols[i]| >= 5
  {
    if gs == [] then []
    else
      var n := |gs| - 1;
      PaintedAll(gs[..n], cols[..n], useFinish, customFinish)
        + Painted(gs[n].body, cols[n], ResolveFinish(useFinish, gs[n].material), customFinish) + gs[n].accent
  }

  /** update_device_dims over the features' extents, starting from x0. */
  function FoldX(x0: real, gs: seq<Geom>): real
  {
    if gs == [] then x0
    else
      var x := FoldX(x0, gs[..|gs| - 1]);
      match gs[|gs| - 1].extent
      case Some(e) => Max(e.x, x)
      case None => x
  }

  function FoldY(y0: real, gs: seq<Geom>): real
  {
    if gs == [] then y0
    else
      var y := FoldY(y0, gs[..|gs| - 1]);
      match gs[|gs| - 1].extent
      case Some(e) => Max(e.y, y)
      case None => y
  }

  /** The grown x extent is the largest of the start and the features'
      x halfwidths. */
  lemma {:induction false} FoldXBounds(x0: real, gs: seq<Geom>)
    ensures FoldX(x0, gs) >= x0
    ensures forall i :: 0 <= i < |gs| && gs[i].extent.Some? ==> FoldX(x0, gs) >= gs[i].extent.value.x
    ensures FoldX(x0, gs) == x0 || exists i :: 0 <= i < |gs| && gs[i].extent.Some? && FoldX(x0, gs) == gs[i].extent.value.x
  {
    if gs != [] {
      var n := |gs| - 1;
      FoldXBounds(x0, gs[..n]);
      assert forall i :: 0 <= i < n ==> gs[..n][i] == gs[i];
    }
  }

  /** Likewise for the y extent. */
  lemma {:induction false} FoldYBounds(y0: real, gs: seq<Geom>)
    ensures FoldY(y0, gs) >= y0
    ensures forall i :: 0 <= i < |gs| && gs[i].extent.Some? ==> FoldY(y0, gs) >= gs[i].extent.value.y
    ensures FoldY(y0, gs) == y0 || exists i :: 0 <= i < |gs| && gs[i].extent.Some? && FoldY(y0, gs) == gs[i].extent.value.y
  {
    if gs != [] {
      var n := |gs| - 1;
      FoldYBounds(y0, gs[..n]);
      assert forall i :: 0 <= i < n ==> gs[..n][i] == gs[i];
    }
  }

  /** Every colour list the layer may paint with. */
  function Palette(defaults: map<string, ColorList>, customs: seq<ColorList>): set<ColorList>
  {
    defaults.Values + (set o | o in customs)
  }

  /** What a successful entry adds: nothing for a non-feature, else the
      painted feature and the next cursor. */
  predicate EntryWritten(f: Option<Result<Geom>>, piece: (Text, nat), col: seq<real>, c: nat,
                         useDefault: bool, useFinish: string, customFinish: string)
  {
    match f
    case None => piece == ([], c)
    case Some(Err(_)) => false
    case Some(Ok(g)) =>
      && g.extent.Some? && |col| >= 5
      && piece == (Painted(g.body, col, ResolveFinish(useFinish, g.material), customFinish) + g.accent,
                   NextColor(c, useDefault))
  }

  /** The lateral dims after an entry. */
  function Grow(f: Option<Result<Geom>>, x: real, y: real): (real, real)
  {
    match f
    case Some(Ok(g)) =>
      (match g.extent
       case Some(e) => (Max(e.x, x), Max(e.y, y))
       case None => (x, y))
    case _ => (x, y)
  }

  /** One entry of the layer loop: dispatch on the layer type. With the
      default colours the features' colour is the material's colour in
      `rgbs0` resolved with its finish, and the default lists keep
      printing what `rgbs0` does. */
  method WriteEntry(shapes: seq<ShapeRec>, k: nat, layerType: array<string>, dims: array<real>,
                    end0: real, end1: real, defaults: map<string, ColorList>, useDefault: bool,
                    customs: seq<ColorList>, c: nat, useFinish: string, customFinish: string,
                    addLines: bool, ghost fs: seq<Option<Result<Geom>>>, ghost tags: seq<string>,
                    ghost z0: real, ghost rgbs0: map<string, seq<real>>)
    returns (r: Result<(Text, nat)>, ghost col: seq<real>)
    requires k < |shapes| && layerType.Length == |shapes| && dims.Length == 3
    requires layerType[..] == tags && dims[2] == z0 && FeaturesOf(fs, shapes, tags, end0, end1, z0, addLines)
    modifies dims, PickedFootprint(defaults, shapes[k].material, useDefault, customs, c)
    ensures dims[2] == old(dims[2])
    ensures fs[k].Some? && fs[k].value.Err? ==> r == Err(fs[k].value.error)
    ensures r.Ok? ==> EntryWritten(fs[k], r.value, col, c, useDefault, useFinish, customFinish)
    ensures r.Ok? ==> (dims[0], dims[1]) == Grow(fs[k], old(dims[0]), old(dims[1]))
    ensures Repainted(PickedFootprint(defaults, shapes[k].material, useDefault, customs, c))
    ensures useDefault && Unshared(defaults) && old(DefaultsHold(defaults, rgbs0, useFinish)) ==>
      && DefaultsHold(defaults, rgbs0, useFinish)
      && (r.Ok? ==> DefaultColored(fs[k], col, rgbs0, useFinish))
  {
    r, col := DispatchEntry(shapes, k, layerType, dims, end0, end1, defaults, useDefault, customs, c,
                            useFinish, customFinish, addLines, fs, tags, z0);
    ghost var m := shapes[k].material;
    if useDefault && Unshared(defaults) && m in defaults {
      FeatureMaterial(shapes, tags, k, end0, end1, z0, addLines);
      ResolvedIdempotent(old(defaults[m].rgbft), ResolveFinish(useFinish, m));
    }
  }

  /** The dispatch of WriteEntry on the layer type. */
  method DispatchEntry(shapes: seq<ShapeRec>, k: nat, layerType: array<string>, dims: array<real>,
                       end0: real, end1: real, defaults: map<string, ColorList>, useDefault: bool,
                       customs: seq<ColorList>, c: nat, useFinish: string, customFinish: string,
                       addLines: bool, ghost fs: seq<Option<Result<Geom>>>, ghost tags: seq<string>,
                       ghost z0: real)
    returns (r: Result<(Text, nat)>, ghost col: seq<real>)
    requires k < |shapes| && layerType.Length == |shapes| && dims.Length == 3
    requires layerType[..] == tags && dims[2] == z0 && FeaturesOf(fs, shapes, tags, end0, end1, z0, addLines)
    modifies dims, PickedFootprint(defaults, shapes[k].material, useDefault, customs, c)
    ensures fs[k] == FeatureAt(shapes, tags, k, end0, end1, z0, addLines)
    ensures dims[2] == old(dims[2])
    ensures fs[k].Some? && fs[k].value.Err? ==> r == Err(fs[k].value.error)
    ensures r.Ok? ==> EntryWritten(fs[k], r.value, col, c, useDefault, useFinish, customFinish)
    ensures r.Ok? ==> (dims[0], dims[1]) == Grow(fs[k], old(dims[0]), old(dims[1]))
    ensures Repainted(PickedFootprint(defaults, shapes[k].material, useDefault, customs, c))
    ensures useDefault && Unshared(defaults) ==>
      DefaultsResolved(defaults, shapes[k].material, ResolveFinish(useFinish, shapes[k].material))
    ensures r.Ok? && useDefault && fs[k].Some? ==> PaintedDefault(defaults, shapes[k].material, useFinish, col)
  {
    col := [];
    assert fs[k] == FeatureAt(shapes, tags, k, end0, end1, z0, addLines);
    var t := layerType[k];
    if t == "circle" {
      r, col := WriteCircleFeature(shapes, k, dims, end0, end1, defaults, useDefault, customs, c,
                                   useFinish, customFinish, addLines);
    } else if t == "silo" {
      r, col := WriteSiloFeature(shapes, k, layerType, dims, end0, end1, defaults, useDefault, customs, c,
                                 useFinish, customFinish, addLines);
    } else if t == "ellipse" {
      r, col := WriteEllipseFeature(shapes, k, dims, end0, end1, defaults, useDefault, customs, c,
                                    useFinish, customFinish, addLines);
    } else if t == "rectangle" {
      r, col := WriteRectangleFeature(shapes, k, dims, end0, end1, defaults, useDefault, customs, c,
                                      useFinish, customFinish, addLines);
    } else if t == "polygon" {
      r, col := WritePolygonFeature(shapes, k, dims, end0, end1, defaults, useDefault, customs, c,
                                    useFinish, customFinish, addLines);
    } else {
      r := Ok(([], c));
    }
  }

  /** Every feature of entry k is painted in the material of record k. */
  lemma FeatureMaterial(shapes: seq<ShapeRec>, tags: seq<string>, k: nat, end0: real, end1: real, z0: real,
                        addLines: bool)
    requires k < |shapes| && |tags| == |shapes|
    ensures var f := FeatureAt(shapes, tags, k, end0, end1, z0, addLines);
      f.Some? && f.value.Ok? ==> f.value.value.material == shapes[k].material
  {
  }

  /** One step of the fold over a layer's features. */
  lemma LayerStep(gs: seq<Geom>, cols: seq<seq<real>>, g: Geom, col: seq<real>, useFinish: string,
                  customFinish: string, x0: real, y0: real)
    requires |cols| == |gs| && (forall i :: 0 <= i < |cols| ==> |cols[i]| >= 5) && |col| >= 5
    ensures PaintedAll(gs + [g], cols + [col], useFinish, customFinish)
         == PaintedAll(gs, cols, useFinish, customFinish)
            + (Painted(g.body, col, ResolveFinish(useFinish, g.material), customFinish) + g.accent)
    ensures g.extent.Some? ==> FoldX(x0, gs + [g]) == Max(g.extent.value.x, FoldX(x0, gs))
    ensures g.extent.Some? ==> FoldY(y0, gs + [g]) == Max(g.extent.value.y, FoldY(y0, gs))
  {
    assert (gs + [g])[..|gs|] == gs;
    assert (cols + [col])[..|cols|] == cols;
    var p := Painted(g.body, col, ResolveFinish(useFinish, g.material), customFinish);
    assert PaintedAll(gs, cols, useFinish, customFinish) + p + g.accent
        == PaintedAll(gs, cols, useFinish, customFinish) + (p + g.accent);
  }

  /** The state of the feature loop after the entries `fs`: the features
      written, their colours, the text, the cursor and the lateral dims. */
  predicate LayerSoFar(fs: seq<Option<Result<Geom>>>, gs: seq<Geom>, cols: seq<seq<real>>, layer: Text,
                       cc: nat, c: nat, useDefault: bool, x: real, y: real, x0: real, y0: real,
                       useFinish: string, customFinish: string)
  {
    && Collect(fs) == Ok(gs)
    && |cols| == |gs| && (forall i :: 0 <= i < |cols| ==> |cols[i]| >= 5)
    && layer == PaintedAll(gs, cols, useFinish, customFinish)
    && cc == (if useDefault then c else c + |gs|)
    && x == FoldX(x0, gs) && y == FoldY(y0, gs)
  }

  lemma PrefixSnoc<T>(s: seq<T>, k: nat)
    requires k < |s|
    ensures s[..k + 1] == s[..k] + [s[k]]
  {
  }

  /** One more entry keeps the loop state. */
  lemma LayerAppend(fs: seq<Option<Result<Geom>>>, k: nat, gs: seq<Geom>, cols: seq<seq<real>>, layer: Text,
                    cc: nat, c: nat, useDefault: bool, x: real, y: real, x0: real, y0: real, useFinish: string,
                    customFinish: string, piece: (Text, nat), col: seq<real>, rgbs0: map<string, seq<real>>)
    returns (gs': seq<Geom>, cols': seq<seq<real>>)
    requires k < |fs|
    requires LayerSoFar(fs[..k], gs, cols, layer, cc, c, useDefault, x, y, x0, y0, useFinish, customFinish)
    requires EntryWritten(fs[k], piece, col, cc, useDefault, useFinish, customFinish)
    ensures LayerSoFar(fs[..k + 1], gs', cols', layer + piece.0, piece.1, c, useDefault, Grow(fs[k], x, y).0,
                       Grow(fs[k], x, y).1, x0, y0, useFinish, customFinish)
    ensures DefaultColored(fs[k], col, rgbs0, useFinish) && DefaultPainted(gs, cols, rgbs0, useFinish) ==>
      DefaultPainted(gs', cols', rgbs0, useFinish)
  {
    PrefixSnoc(fs, k);
    assert fs[..k + 1][..k] == fs[..k];
    gs', cols' := gs, cols;
    match fs[k] {
      case None =>
        assert layer + piece.0 == layer;
      case Some(Ok(g)) =>
        LayerStep(gs, cols, g, col, useFinish, customFinish, x0, y0);
        gs', cols' := gs + [g], cols + [col];
        if DefaultColored(fs[k], col, rgbs0, useFinish) && DefaultPainted(gs, cols, rgbs0, useFinish) {
          DefaultAppend(gs, cols, g, col, rgbs0, useFinish);
        }
    }
  }

  /** One more feature in its material's colour keeps DefaultPainted. */
  lemma DefaultAppend(gs: seq<Geom>, cols: seq<seq<real>>, g: Geom, col: seq<real>,
                      rgbs0: map<string, seq<real>>, useFinish: string)
    requires DefaultPainted(gs, cols, rgbs0, useFinish) && |cols| == |gs|
    requires g.material in rgbs0 && col == Resolved(rgbs0[g.material], ResolveFinish(useFinish, g.material))
    ensures DefaultPainted(gs + [g], cols + [col], rgbs0, useFinish)
  {
  }

  // ---------------------------------------------------------------------
  // The default colours the features are painted with
  // ---------------------------------------------------------------------

  /** Each default list, resolved with its material's finish, prints what
      the material's colour in `rgbs0` does, resolved so: since `rgbs0` the
      lists were at most resolved, each with its own material's finish. */
  predicate DefaultsHold(defaults: map<string, ColorList>, rgbs0: map<string, seq<real>>, useFinish: string)
    reads defaults.Values
  {
    && defaults.Keys == rgbs0.Keys
    && forall m :: m in defaults ==>
         Resolved(defaults[m].rgbft, ResolveFinish(useFinish, m)) == Resolved(rgbs0[m], ResolveFinish(useFinish, m))
  }

  /** A feature entry, if it is one, is painted with its material's colour
      in `rgbs0`, resolved with that material's finish. */
  predicate DefaultColored(f: Option<Result<Geom>>, col: seq<real>, rgbs0: map<string, seq<real>>, useFinish: string)
  {
    f.Some? && f.value.Ok? ==>
      var g := f.value.value;
      g.material in rgbs0 && col == Resolved(rgbs0[g.material], ResolveFinish(useFinish, g.material))
  }

  /** Every feature is painted with its material's colour in `rgbs0`,
      resolved with that material's finish. */
  predicate DefaultPainted(gs: seq<Geom>, cols: seq<seq<real>>, rgbs0: map<string, seq<real>>, useFinish: string)
  {
    forall i :: 0 <= i < |gs| && i < |cols| ==>
      gs[i].material in rgbs0 && cols[i] == Resolved(rgbs0[gs[i].material], ResolveFinish(useFinish, gs[i].material))
  }

  /** The colour list an entry may change is one of the layer's. */
  lemma PickedInPalette(defaults: map<string, ColorList>, material: string, useDefault: bool,
                        customs: seq<ColorList>, c: nat)
    ensures PickedFootprint(defaults, material, useDefault, customs, c) <= Palette(defaults, customs)
  {
    if c < |customs| && useDefault && material in defaults {
      assert defaults[material] in defaults.Values;
    }
  }

  /** The feature loop of create_device_layer over the final layer types. */
  method WriteEntries(shapes: seq<ShapeRec>, types: array<string>, dims: array<real>, end0: real, end1: real,
                      defaults: map<string, ColorList>, useDefault: bool, customs: seq<ColorList>,
                      c: nat, useFinish: string, customFinish: string, addLines: bool,
                      ghost fs: seq<Option<Result<Geom>>>, ghost rgbs0: map<string, seq<real>>)
    returns (r: Result<(Text, nat)>, ghost gs: seq<Geom>, ghost cols: seq<seq<real>>)
    requires types.Length == |shapes| && dims.Length == 3
    requires FeaturesOf(fs, shapes, types[..], end0, end1, dims[2], addLines)
    modifies dims, Palette(defaults, customs)
    ensures dims[2] == old(dims[2])
    ensures r.Ok? ==>
      LayerSoFar(fs, gs, cols, r.value.0, r.value.1, c, useDefault, dims[0], dims[1], old(dims[0]),
                 old(dims[1]), useFinish, customFinish)
    ensures Repainted(Palette(defaults, customs))
    ensures useDefault && Unshared(defaults) && old(DefaultsHold(defaults, rgbs0, useFinish)) ==>
      && DefaultsHold(defaults, rgbs0, useFinish)
      && (r.Ok? ==> DefaultPainted(gs, cols, rgbs0, useFinish))
  {
    gs, cols := [], [];
    ghost var x0, y0, z0 := dims[0], dims[1], dims[2];
    ghost var tags := types[..];
    var layer: Text := [];
    var cc := c;
    assert fs[..0] == [];
    for k := 0 to types.Length
      invariant types[..] == tags && dims[2] == z0
      invariant LayerSoFar(fs[..k], gs, cols, layer, cc, c, useDefault, dims[0], dims[1], x0, y0,
                           useFinish, customFinish)
      invariant Repainted(Palette(defaults, customs))
      invariant useDefault && Unshared(defaults) && old(DefaultsHold(defaults, rgbs0, useFinish)) ==>
        DefaultsHold(defaults, rgbs0, useFinish) && DefaultPainted(gs, cols, rgbs0, useFinish)
    {
      ghost var x, y := dims[0], dims[1];
      PickedInPalette(defaults, shapes[k].material, useDefault, customs, cc);
      var piece, col := WriteEntry(shapes, k, types, dims, end0, end1, defaults, useDefault, customs, cc,
                                   useFinish, customFinish, addLines, fs, tags, z0, rgbs0);
      if piece.Err? {
        return Err(piece.error), gs, cols;
      }
      gs, cols := LayerAppend(fs, k, gs, cols, layer, cc, c, useDefault, x, y, x0, y0, useFinish,
                              customFinish, piece.value, col, rgbs0);
      layer, cc := layer + piece.value.0, piece.value.1;
    }
    assert fs[..|shapes|] == fs;
    r := Ok((layer, cc));
  }

  /** The layer types of create_device_layer: the classification, then the
      false-silo pass when some record is vacuum. */
  method LayerTypes(shapes: seq<ShapeRec>) returns (types: array<string>)
    ensures fresh(types) && types.Length == |shapes| && types[..] == LayerTags(shapes)
  {
    var hasSilo;
    types, hasSilo := ClassifyShapes(shapes);
    assert types[..] == Classified(shapes);
    if hasSilo {
      CheckForFalseSilos(shapes, types);
    }
  }

  /** create_device_layer: the layer's features in order, each painted
      with the colour list it chose, then the closing brace; the cursor
      ends at 0 with default colours, else moved on once per feature; the
      lateral dims grow to the features' extents (and at least 0) and the
      height by the layer's thickness. With default colours every feature
      is painted with its material's default colour, as the lists held it
      on entry, resolved with the material's finish. */
  method CreateDeviceLayer(shapes: seq<ShapeRec>, dims: array<real>, end0: real, end1: real, thickness: real,
                           defaults: map<string, ColorList>, useDefault: bool, customs: seq<ColorList>,
                           c: nat, useFinish: string, customFinish: string, addLines: bool,
                           ghost rgbs0: map<string, seq<real>>)
    returns (r: Result<(Text, nat)>, ghost fs: seq<Option<Result<Geom>>>, ghost gs: seq<Geom>,
             ghost cols: seq<seq<real>>)
    requires dims.Length == 3
    modifies dims, Palette(defaults, customs)
    ensures FeaturesOf(fs, shapes, LayerTags(shapes), end0, end1, old(dims[2]), addLines)
    ensures r.Ok? ==>
      && Collect(fs) == Ok(gs)
      && |cols| == |gs| && (forall i :: 0 <= i < |cols| ==> |cols[i]| >= 5)
      && r.value.0 == PaintedAll(gs, cols, useFinish, customFinish) + [Lit("}\n\t")]
      && r.value.1 == (if useDefault then 0 else c + |gs|)
      && dims[0] == Max(0.0, FoldX(old(dims[0]), gs)) && dims[1] == Max(0.0, FoldY(old(dims[1]), gs))
      && dims[2] == old(dims[2]) + thickness
    ensures Repainted(Palette(defaults, customs))
    ensures useDefault && Unshared(defaults) && old(DefaultsHold(defaults, rgbs0, useFinish)) ==>
      && DefaultsHold(defaults, rgbs0, useFinish)
      && (r.Ok? ==> DefaultPainted(gs, cols, rgbs0, useFinish))
  {
    var cs := customs;
    var cc := c;
    if useDefault {
      var blank := new ColorList([]);
      cs := [blank];
      cc := 0;
    }
    r, fs, gs, cols := FillLayer(shapes, dims, end0, end1, thickness, defaults, useDefault, cs, cc, useFinish,
                                 customFinish, addLines, rgbs0);
  }

  /** create_device_layer once the colour cursor is set: the layer types,
      the feature loop and the closing brace, then the layer's thickness. */
  method FillLayer(shapes: seq<ShapeRec>, dims: array<real>, end0: real, end1: real, thickness: real,
                   defaults: map<string, ColorList>, useDefault: bool, customs: seq<ColorList>,
                   c: nat, useFinish: string, customFinish: string, addLines: bool,
                   ghost rgbs0: map<string, seq<real>>)
    returns (r: Result<(Text, nat)>, ghost fs: seq<Option<Result<Geom>>>, ghost gs: seq<Geom>,
             ghost cols: seq<seq<real>>)
    requires dims.Length == 3
    modifies dims, Palette(defaults, customs)
    ensures FeaturesOf(fs, shapes, LayerTags(shapes), end0, end1, old(dims[2]), addLines)
    ensures r.Ok? ==>
      && Collect(fs) == Ok(gs)
      && |cols| == |gs| && (forall i :: 0 <= i < |cols| ==> |cols[i]| >= 5)
      && r.value.0 == PaintedAll(gs, cols, useFinish, customFinish) + [Lit("}\n\t")]
      && r.value.1 == (if useDefault then c else c + |gs|)
      && dims[0] == Max(0.0, FoldX(old(dims[0]), gs)) && dims[1] == Max(0.0, FoldY(old(dims[1]), gs))
      && dims[2] == old(dims[2]) + thickness
    ensures Repainted(Palette(defaults, customs))
    ensures useDefault && Unshared(defaults) && old(DefaultsHold(defaults, rgbs0, useFinish)) ==>
      && DefaultsHold(defaults, rgbs0, useFinish)
      && (r.Ok? ==> DefaultPainted(gs, cols, rgbs0, useFinish))
  {
    var types := LayerTypes(shapes);
    fs := LayerFeatures(shapes, types[..], end0, end1, dims[2], addLines);
    var layer;
    layer, gs, cols := WriteEntries(shapes, types, dims, end0, end1, defaults, useDefault, customs, c,
                                    useFinish, customFinish, addLines, fs, rgbs0);
    if layer.Err? {
      return layer, fs, gs, cols;
    }
    UpdateDeviceDims(dims, 0.0, 0.0, thickness);
    r := Ok((layer.value.0 + [Lit("}\n\t")], layer.value.1));
  }
}
