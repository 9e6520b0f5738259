/** The shape primitives of util_shapes.py: the device-dimension
    accumulator, the POV-Ray text of the four feature shapes, and the slab
    used for the background, the coatings and the substrate. */
module UtilShapes {
  import opened Wrappers
  import opened Text

  /** A point or vector in the x,y-plane. */
  datatype XY = XY(x: real, y: real)

  /** The `halfwidths` entry of a shape record. The documents give it as a
      dictionary {"x": .., "y": ..}; a list can also occur, and the false-silo
      test compares the entry with the list [0, 0]. */
  datatype Halfwidths = Mapping(hx: real, hy: real) | Listed(items: seq<real>)

  /** One shape record of a layer, `shapes[str(k)]`, with the keys the
      writers read (`material`, `shape` and the `shape_vars` entries). */
  datatype ShapeRec = ShapeRec(material: string, shape: string, center: XY, radius: real,
                               halfwidths: Halfwidths, angle: real, vertices: seq<XY>)

  // ---------------------------------------------------------------------
  // update_device_dims (util_shapes.py:570-593)
  // ---------------------------------------------------------------------

  /** Python's max(a, b) on two numbers. */
  function Max(a: real, b: real): (m: real)
    ensures m >= a && m >= b
    ensures m == a || m == b
  {
    if b > a then b else a
  }

  /** update_device_dims: the footprint grows to the larger of the old and
      the new extents, the height accumulates. The list is changed in place. */
  method UpdateDeviceDims(dims: array<real>, newX: real, newY: real, newZ: real)
    requires dims.Length == 3
    modifies dims
    ensures dims[0] == Max(newX, old(dims[0])) && dims[1] == Max(newY, old(dims[1]))
    ensures dims[2] == old(dims[2]) + newZ
    ensures dims[0] >= old(dims[0]) && dims[1] >= old(dims[1])
  {
    dims[0] := Max(newX, dims[0]);
    dims[1] := Max(newY, dims[1]);
    dims[2] := dims[2] + newZ;
  }

  // ---------------------------------------------------------------------
  // create_cylinder, create_ellipse, create_rectangle (util_shapes.py:29-118)
  // ---------------------------------------------------------------------

  /** `<x, y, z>` with z to five decimals: one end of a pillar. */
  function End3(c: XY, z: real): Text
  {
    [Lit("<"), Num(c.x, Plain), Lit(", "), Num(c.y, Plain), Lit(", "), Num(z, Fixed(5)), Lit(">")]
  }

  /** The rotation about z, written only for a nonzero angle. */
  function Rotation(angle: real): Text
  {
    if angle != 0.0 then [Lit("rotate <0, 0, "), Num(angle, Plain), Lit("> \n\t\t")] else []
  }

  /** A shape inside a silo closes its own brace. */
  function SiloClose(forSilo: bool): Text
  {
    if forSilo then [Lit("}\n\t\t")] else []
  }

  /** create_cylinder: a pillar between the two ends with the given radius. */
  function Cylinder(c: XY, end0: real, end1: real, radius: real, forSilo: bool): Text
  {
    [Lit("cylinder \n\t\t{\n\t\t ")] + End3(c, end0) + [Lit(", \n\t\t")] + End3(c, end1)
    + [Lit(", \n\t\t"), Num(radius, Plain), Lit(if forSilo then " }\n\t\t" else "\n\t\t")]
  }

  /** create_ellipse: a unit cylinder scaled by the halfwidths. */
  function Ellipse(c: XY, end0: real, end1: real, h: XY, angle: real, forSilo: bool): Text
  {
    [Lit("cylinder \n\t\t{\n\t\t ")] + End3(c, end0) + [Lit(", \n\t\t")] + End3(c, end1)
    + [Lit(", \n\t\t1\n\t\tscale <"), Num(h.x, Plain), Lit(", "), Num(h.y, Plain), Lit(", 1>\n\t\t")]
    + Rotation(angle) + SiloClose(forSilo)
  }

  /** The cylinder runs between its two ends over the centre, prints the
      radius, and closes its own brace exactly inside a silo. */
  lemma CylinderParts(c: XY, end0: real, end1: real, radius: real, forSilo: bool)
    ensures var t := Cylinder(c, end0, end1, radius, forSilo);
      && |t| == 19
      && t[1..8] == End3(c, end0) && t[9..16] == End3(c, end1)
      && t[17] == Num(radius, Plain)
      && (t[18] == Lit(" }\n\t\t") <==> forSilo)
  {
  }

  /** The ellipse runs between its two ends, is rotated exactly for a
      nonzero angle and closes its own brace exactly inside a silo. */
  lemma EllipseParts(c: XY, end0: real, end1: real, h: XY, angle: real, forSilo: bool)
    ensures var t := Ellipse(c, end0, end1, h, angle, forSilo);
      && |t| >= 21
      && t[1..8] == End3(c, end0) && t[9..16] == End3(c, end1)
      && t[16..21] == [Lit(", \n\t\t1\n\t\tscale <"), Num(h.x, Plain), Lit(", "), Num(h.y, Plain), Lit(", 1>\n\t\t")]
  {
    var head := [Lit("cylinder \n\t\t{\n\t\t ")] + End3(c, end0) + [Lit(", \n\t\t")] + End3(c, end1);
    var scale := [Lit(", \n\t\t1\n\t\tscale <"), Num(h.x, Plain), Lit(", "), Num(h.y, Plain), Lit(", 1>\n\t\t")];
    assert |head| == 16;
    assert (head + scale + Rotation(angle) + SiloClose(forSilo))[16..21] == scale;
  }

  /** The ellipse is rotated exactly for a nonzero angle and closes its own
      brace exactly inside a silo. */
  lemma EllipseTail(c: XY, end0: real, end1: real, h: XY, angle: real, forSilo: bool)
    ensures Lit("rotate <0, 0, ") in Ellipse(c, end0, end1, h, angle, forSilo) <==> angle != 0.0
    ensures Lit("}\n\t\t") in Ellipse(c, end0, end1, h, angle, forSilo) <==> forSilo
  {
    var body := [Lit("cylinder \n\t\t{\n\t\t ")] + End3(c, end0) + [Lit(", \n\t\t")] + End3(c, end1)
      + [Lit(", \n\t\t1\n\t\tscale <"), Num(h.x, Plain), Lit(", "), Num(h.y, Plain), Lit(", 1>\n\t\t")];
    assert Lit("rotate <0, 0, ") !in body && Lit("}\n\t\t") !in body;
    assert Ellipse(c, end0, end1, h, angle, forSilo) == body + Rotation(angle) + SiloClose(forSilo);
  }

  /** The corner lines of create_rectangle. All but the first piece of the
      template lack the f prefix, so the braces and expressions are written
      out literally instead of being interpolated. */
  const RectangleCorners := "box\n\t\t{\n\t\t" + "<{(center[0] - halfwidths[0])}, "
    + "{(center[1]-halfwidths[1])}, {end[0]:.5f}>\n\t\t" + "<{(center[0] + halfwidths[0])} "
    + "{(center[1]+halfwidths[1])}, {end[1]:.5f}>\n\t\t"

  /** create_rectangle, as written. */
  function Rectangle(c: XY, end0: real, end1: real, h: XY, angle: real, forSilo: bool): Text
  {
    [Lit(RectangleCorners)] + Rotation(angle) + SiloClose(forSilo)
  }

  /** The rectangle's text depends on its angle and silo flag only: its
      centre, ends and halfwidths never reach the output. */
  lemma RectangleIgnoresGeometry(c1: XY, c2: XY, e0: real, e1: real, f0: real, f1: real,
                                 h1: XY, h2: XY, angle: real, forSilo: bool)
    ensures Rectangle(c1, e0, e1, h1, angle, forSilo) == Rectangle(c2, f0, f1, h2, angle, forSilo)
    ensures Rectangle(c1, e0, e1, h1, angle, forSilo)[0] == Lit(RectangleCorners)
  {
  }

  // ---------------------------------------------------------------------
  // create_polygon (util_shapes.py:121-165)
  // ---------------------------------------------------------------------

  /** The vertices moved so that the polygon's centre is the origin. */
  function Shift(vs: seq<XY>, c: XY): (r: seq<XY>)
    ensures |r| == |vs|
    ensures forall i :: 0 <= i < |vs| ==> r[i] == XY(vs[i].x - c.x, vs[i].y - c.y)
  {
    seq(|vs|, i requires 0 <= i < |vs| => XY(vs[i].x - c.x, vs[i].y - c.y))
  }

  /** `<x, y>` as create_polygon writes a vertex. */
  function VertexTok(v: XY): Tok
  {
    Vec([v.x, v.y], Plain)
  }

  /** The first k vertices, each followed by ", ". */
  function VertexLines(vs: seq<XY>, k: nat): Text
    requires k <= |vs|
  {
    if k == 0 then [] else VertexLines(vs, k - 1) + [VertexTok(vs[k - 1]), Lit(", ")]
  }

  function PolygonHead(end0: real, end1: real, count: int): Text
  {
    [Lit("prism\n\t\t{\n\t\tlinear_sweep \n\t\tlinear_spline \n\t\t"), Num(end0, Fixed(5)), Lit(", "),
     Num(end1, Fixed(5)), Lit(", "), Int(count), Lit(" \n\t\t")]
  }

  /** The rotation upright and the translation into place (`z0` is the
      device height so far). */
  function PolygonPlace(c: XY, end0: real, z0: real): Text
  {
    [Lit("\n\t\t"), Lit("rotate <90, 0, 0> \n\t\t"), Lit("translate -<"), Num(c.x, Plain),
     Lit(", -"), Num(c.y, Plain), Lit(", "), Num(end0 - z0, Plain), Lit("> \n\t\t")]
  }

  /** The closing vertex, the placement, the rotation and the silo brace. */
  function PolygonTail(first: XY, c: XY, end0: real, z0: real, angle: real, forSilo: bool): Text
  {
    [VertexTok(first)] + PolygonPlace(c, end0, z0) + Rotation(angle) + SiloClose(forSilo)
  }

  lemma PolygonTailVertices(first: XY, c: XY, end0: real, z0: real, angle: real, forSilo: bool)
    ensures Vertices(PolygonTail(first, c, end0, z0, angle, forSilo)) == [VertexTok(first)]
  {
    var place := PolygonPlace(c, end0, z0);
    VerticesNone(place);
    VerticesNone(Rotation(angle));
    VerticesNone(SiloClose(forSilo));
    VerticesFirst(VertexTok(first), place, Rotation(angle), SiloClose(forSilo));
  }

  /** The prism of create_polygon over the already shifted vertices. */
  function PolygonText(c: XY, end0: real, end1: real, shifted: seq<XY>, z0: real, angle: real,
                       forSilo: bool): Text
    requires shifted != []
  {
    PolygonHead(end0, end1, |shifted| + 1) + VertexLines(shifted, |shifted|)
    + PolygonTail(shifted[0], c, end0, z0, angle, forSilo)
  }

  /** create_polygon: shifts the caller's vertices in place, writing each
      one, then closes the outline with the first vertex; an empty vertex
      list fails on that last read. */
  method CreatePolygon(c: XY, end0: real, end1: real, vertices: array<XY>, dims: array<real>,
                       angle: real, forSilo: bool) returns (r: Result<Text>)
    requires dims.Length == 3
    modifies vertices
    ensures vertices[..] == Shift(old(vertices[..]), c)
    ensures vertices.Length == 0 ==> r == Err(IndexError)
    ensures vertices.Length > 0 ==> r == Ok(PolygonText(c, end0, end1, vertices[..], dims[2], angle, forSilo))
  {
    ghost var vs := vertices[..];
    var t := PolygonHead(end0, end1, vertices.Length + 1);
    for i := 0 to vertices.Length
      invariant forall j :: 0 <= j < i ==> vertices[j] == XY(vs[j].x - c.x, vs[j].y - c.y)
      invariant forall j :: i <= j < vertices.Length ==> vertices[j] == vs[j]
      invariant t == PolygonHead(end0, end1, vertices.Length + 1) + VertexLines(vertices[..], i)
    {
      ghost var before := vertices[..];
      vertices[i] := XY(vertices[i].x - c.x, vertices[i].y - c.y);
      VertexLinesFrame(before, vertices[..], i);
      t := t + [VertexTok(vertices[i]), Lit(", ")];
    }
    assert vertices[..] == Shift(vs, c);
    if vertices.Length == 0 {
      return Err(IndexError);
    }
    t := t + PolygonTail(vertices[0], c, end0, dims[2], angle, forSilo);
    r := Ok(t);
  }

  /** The first k vertex lines read only the first k vertices. */
  lemma {:induction false} VertexLinesFrame(a: seq<XY>, b: seq<XY>, k: nat)
    requires k <= |a| && k <= |b|
    requires forall j :: 0 <= j < k ==> a[j] == b[j]
    ensures VertexLines(a, k) == VertexLines(b, k)
  {
    if k > 0 {
      VertexLinesFrame(a, b, k - 1);
    }
  }

  /** The outline of a polygon as vertex tokens. */
  function VertexToks(vs: seq<XY>): (v: Text)
    ensures |v| == |vs|
    ensures forall j :: 0 <= j < |vs| ==> v[j] == VertexTok(vs[j])
  {
    seq(|vs|, j requires 0 <= j < |vs| => VertexTok(vs[j]))
  }

  /** The vertex lines list the first k vertices in order. */
  lemma {:induction false} VertexLinesVertices(vs: seq<XY>, k: nat)
    requires k <= |vs|
    ensures Vertices(VertexLines(vs, k)) == VertexToks(vs[..k])
  {
    if k > 0 {
      VertexLinesVertices(vs, k - 1);
      VerticesSplit(VertexLines(vs, k - 1), [VertexTok(vs[k - 1]), Lit(", ")]);
      VerticesCons(Lit(", "), []);
      VerticesCons(VertexTok(vs[k - 1]), [Lit(", ")]);
      assert vs[..k] == vs[..k - 1] + [vs[k - 1]];
    }
  }

  /** The prism lists every vertex in order, closes the outline with the
      first one again, and announces that many points. */
  lemma PolygonVertices(c: XY, end0: real, end1: real, shifted: seq<XY>, z0: real, angle: real,
                        forSilo: bool)
    requires shifted != []
    ensures var t := PolygonText(c, end0, end1, shifted, z0, angle, forSilo);
      && Vertices(t) == VertexToks(shifted + [shifted[0]])
      && t[5] == Int(|Vertices(t)|)
  {
    PolygonTextParts(c, end0, end1, shifted, z0, angle, forSilo);
    PolygonCount(c, end0, end1, shifted, z0, angle, forSilo);
    VertexLinesVertices(shifted, |shifted|);
    assert shifted[..|shifted|] == shifted;
  }

  /** The head lists no vertex, the tail only the first one again. */
  lemma PolygonTextParts(c: XY, end0: real, end1: real, shifted: seq<XY>, z0: real, angle: real,
                         forSilo: bool)
    requires shifted != []
    ensures Vertices(PolygonText(c, end0, end1, shifted, z0, angle, forSilo))
            == Vertices(VertexLines(shifted, |shifted|)) + [VertexTok(shifted[0])]
  {
    var head := PolygonHead(end0, end1, |shifted| + 1);
    PolygonHeadNone(end0, end1, |shifted| + 1);
    PolygonTailVertices(shifted[0], c, end0, z0, angle, forSilo);
    PolygonTextIs(c, end0, end1, shifted, z0, angle, forSilo);
    VerticesAround(head, VertexLines(shifted, |shifted|), PolygonTail(shifted[0], c, end0, z0, angle, forSilo),
                   VertexTok(shifted[0]));
  }

  lemma PolygonHeadNone(end0: real, end1: real, count: int)
    ensures Vertices(PolygonHead(end0, end1, count)) == []
  {
    VerticesNone(PolygonHead(end0, end1, count));
  }

  lemma PolygonTextIs(c: XY, end0: real, end1: real, shifted: seq<XY>, z0: real, angle: real, forSilo: bool)
    requires shifted != []
    ensures PolygonText(c, end0, end1, shifted, z0, angle, forSilo)
            == PolygonHead(end0, end1, |shifted| + 1) + VertexLines(shifted, |shifted|)
               + PolygonTail(shifted[0], c, end0, z0, angle, forSilo)
  {
  }

  /** The sixth token of the prism is its count of points. */
  lemma PolygonCount(c: XY, end0: real, end1: real, shifted: seq<XY>, z0: real, angle: real, forSilo: bool)
    requires shifted != []
    ensures PolygonText(c, end0, end1, shifted, z0, angle, forSilo)[5] == Int(|shifted| + 1)
  {
    var head := PolygonHead(end0, end1, |shifted| + 1);
    assert (head + VertexLines(shifted, |shifted|) + PolygonTail(shifted[0], c, end0, z0, angle, forSilo))[5]
           == head[5];
  }

  // ---------------------------------------------------------------------
  // add_slab (util_shapes.py:168-244)
  // ---------------------------------------------------------------------

  /** The two lattice vectors a and b. */
  datatype Lattice = Lattice(a: XY, b: XY)

  /** Half the diagonal a + b: the slab's halfwidth, whatever its type. */
  function SlabHalfwidth(lv: Lattice): XY
  {
    XY(0.5 * (lv.a.x + lv.b.x), 0.5 * (lv.a.y + lv.b.y))
  }

  /** The parallelogram's corners 0, a, a + b, b. */
  function SlabCorners(lv: Lattice): (ps: seq<XY>)
    ensures |ps| == 4
  {
    [XY(0.0, 0.0), XY(lv.a.x, lv.a.y), XY(lv.a.x + lv.b.x, lv.a.y + lv.b.y), XY(lv.b.x, lv.b.y)]
  }

  /** `<x, y>` with six decimals, as the slab writes a vertex. */
  function SlabTok(p: XY): Tok
  {
    Vec([p.x, p.y], Fixed(6))
  }

  function SlabLines(ps: seq<XY>, k: nat): Text
    requires k <= |ps|
  {
    if k == 0 then [] else SlabLines(ps, k - 1) + [SlabTok(ps[k - 1]), Lit(", ")]
  }

  /** The sweep from -t/2 to a hair above t/2, and the count of points. */
  function SlabHead(thickness: real, count: int): Text
  {
    [Lit("prism\n\t\t{\n\t\tlinear_sweep \n\t\tlinear_spline \n\t\t"), Num(-0.5 * thickness, Plain), Lit(", "),
     Num(0.5 * thickness * 1.000001, Plain), Lit(", "), Int(count), Lit(" \n\t\t")]
  }

  /** Where the slab goes, by layer type; any unknown type is a substrate. */
  function SlabTranslate(thickness: real, d0: real, d1: real, d2: real, layerType: string): (real, real, real)
  {
    if layerType == "coating" then (d0, d1, 0.5 * thickness + d2)
    else if layerType == "background" then (0.0, 0.0, -0.5 * thickness - d2)
    else if layerType == "isosurface" then (0.5 * d0, 0.5 * d1, -0.5 * thickness)
    else (d0, d1, -0.5 * thickness - d2)
  }

  function SlabTail(first: XY, tr: (real, real, real)): Text
  {
    [SlabTok(first), Lit(" \n\t\t"), Lit("rotate <90, 0, 0> \n\t\t"), Lit("translate <"), Num(tr.0, Plain),
     Lit(", "), Num(tr.1, Plain), Lit(", "), Num(tr.2, Fixed(6)), Lit(">"), Lit("\n\t\t")]
  }

  /** The slab of add_slab for the shifted corners `ps`. */
  function SlabText(thickness: real, ps: seq<XY>, tr: (real, real, real)): Text
    requires ps != []
  {
    SlabHead(thickness, |ps| + 1) + SlabLines(ps, |ps|) + SlabTail(ps[0], tr)
  }

  /** add_slab: a prism over the lattice parallelogram, centred on the
      origin, swept through the thickness and moved by the layer type. */
  method AddSlab(lv: Lattice, thickness: real, dims: array<real>, layerType: string)
    returns (slab: Text, halfwidth: XY)
    requires dims.Length == 3
    ensures halfwidth == SlabHalfwidth(lv)
    ensures slab == SlabText(thickness, Shift(SlabCorners(lv), SlabHalfwidth(lv)),
                             SlabTranslate(thickness, dims[0], dims[1], dims[2], layerType))
  {
    halfwidth := SlabHalfwidth(lv);
    var end0, end1 := -0.5 * thickness, 0.5 * thickness;
    var points := new XY[4] [XY(0.0, 0.0), XY(lv.a.x, lv.a.y), XY(lv.a.x + lv.b.x, lv.a.y + lv.b.y),
                             XY(lv.b.x, lv.b.y)];
    ghost var corners := points[..];
    assert corners == SlabCorners(lv);
    var lines := ShiftSlabPoints(points, halfwidth);
    assert points[..] == Shift(corners, halfwidth);
    slab := SlabHead(thickness, points.Length + 1) + lines;
    var xt, yt, zt;
    if layerType == "coating" {
      xt, yt, zt := dims[0], dims[1], end1 + dims[2];
    } else if layerType == "background" {
      xt, yt, zt := 0.0, 0.0, end0 - dims[2];
    } else if layerType == "isosurface" {
      xt, yt, zt := 0.5 * dims[0], 0.5 * dims[1], -0.5 * thickness;
    } else {
      xt, yt, zt := dims[0], dims[1], end0 - dims[2];
    }
    assert (xt, yt, zt) == SlabTranslate(thickness, dims[0], dims[1], dims[2], layerType);
    slab := slab + SlabTail(points[0], (xt, yt, zt));
    SlabTextIs(thickness, points[..], (xt, yt, zt));
  }

  /** The loop of add_slab: shifts each point by the halfwidth in place
      and writes it. */
  method ShiftSlabPoints(points: array<XY>, halfwidth: XY) returns (lines: Text)
    modifies points
    ensures points[..] == Shift(old(points[..]), halfwidth)
    ensures lines == SlabLines(points[..], points.Length)
  {
    ghost var corners := points[..];
    lines := [];
    for i := 0 to points.Length
      invariant forall j :: 0 <= j < i ==> points[j] == XY(corners[j].x - halfwidth.x, corners[j].y - halfwidth.y)
      invariant forall j :: i <= j < points.Length ==> points[j] == corners[j]
      invariant lines == SlabLines(points[..], i)
    {
      ghost var before := points[..];
      points[i] := XY(points[i].x - halfwidth.x, points[i].y - halfwidth.y);
      SlabLinesFrame(before, points[..], i);
      lines := lines + [SlabTok(points[i]), Lit(", ")];
    }
  }

  lemma {:induction false} SlabLinesFrame(a: seq<XY>, b: seq<XY>, k: nat)
    requires k <= |a| && k <= |b|
    requires forall j :: 0 <= j < k ==> a[j] == b[j]
    ensures SlabLines(a, k) == SlabLines(b, k)
  {
    if k > 0 {
      SlabLinesFrame(a, b, k - 1);
    }
  }

  /** The slab lists the four corners, shifted by the halfwidth, then the
      first again: five points, as its count says. */
  lemma SlabVertices(lv: Lattice, thickness: real, tr: (real, real, real))
    ensures var ps := Shift(SlabCorners(lv), SlabHalfwidth(lv));
      var t := SlabText(thickness, ps, tr);
      && Vertices(t) == [SlabTok(ps[0]), SlabTok(ps[1]), SlabTok(ps[2]), SlabTok(ps[3]), SlabTok(ps[0])]
      && t[5] == Int(|Vertices(t)|) && |Vertices(t)| == 5
  {
    FourCornerVertices(Shift(SlabCorners(lv), SlabHalfwidth(lv)), thickness, tr);
  }

  /** SlabVertices for any four points. */
  lemma FourCornerVertices(ps: seq<XY>, thickness: real, tr: (real, real, real))
    requires |ps| == 4
    ensures var t := SlabText(thickness, ps, tr);
      && Vertices(t) == [SlabTok(ps[0]), SlabTok(ps[1]), SlabTok(ps[2]), SlabTok(ps[3]), SlabTok(ps[0])]
      && t[5] == Int(|Vertices(t)|) && |Vertices(t)| == 5
  {
    var head := SlabHead(thickness, 5);
    var lines := SlabLines(ps, 4);
    var tail := SlabTail(ps[0], tr);
    SlabTextParts(thickness, ps, tr);
    SlabCount(thickness, ps, tr);
    SlabLinesVertices(ps, 4);
    assert ps[..4] == ps;
    var v := SlabToks(ps);
    assert v == [SlabTok(ps[0]), SlabTok(ps[1]), SlabTok(ps[2]), SlabTok(ps[3])];
  }

  /** The head lists no vertex, the tail only the first point again. */
  lemma SlabTextParts(thickness: real, ps: seq<XY>, tr: (real, real, real))
    requires ps != []
    ensures var t := SlabText(thickness, ps, tr);
      Vertices(t) == Vertices(SlabLines(ps, |ps|)) + [SlabTok(ps[0])]
  {
    var head := SlabHead(thickness, |ps| + 1);
    var lines := SlabLines(ps, |ps|);
    var tail := SlabTail(ps[0], tr);
    SlabHeadNone(thickness, |ps| + 1);
    SlabTailFirst(ps[0], tr);
    SlabTextIs(thickness, ps, tr);
    VerticesAround(head, lines, tail, SlabTok(ps[0]));
  }

  /** The sixth token of the slab is its count of points. */
  lemma SlabCount(thickness: real, ps: seq<XY>, tr: (real, real, real))
    requires ps != []
    ensures SlabText(thickness, ps, tr)[5] == Int(|ps| + 1)
  {
    var head := SlabHead(thickness, |ps| + 1);
    SlabTextIs(thickness, ps, tr);
    assert (head + SlabLines(ps, |ps|) + SlabTail(ps[0], tr))[5] == head[5];
  }

  lemma SlabTextIs(thickness: real, ps: seq<XY>, tr: (real, real, real))
    requires ps != []
    ensures SlabText(thickness, ps, tr) == SlabHead(thickness, |ps| + 1) + SlabLines(ps, |ps|) + SlabTail(ps[0], tr)
  {
  }

  lemma SlabHeadNone(thickness: real, count: int)
    ensures Vertices(SlabHead(thickness, count)) == []
  {
    VerticesNone(SlabHead(thickness, count));
  }

  lemma SlabTailFirst(first: XY, tr: (real, real, real))
    ensures Vertices(SlabTail(first, tr)) == [SlabTok(first)]
  {
    var tail := SlabTail(first, tr);
    var rest := tail[1..];
    assert tail == [SlabTok(first)] + rest;
    VerticesNone(rest);
    VerticesCons(SlabTok(first), rest);
  }

  /** The slab's outline as vertex tokens. */
  function SlabToks(ps: seq<XY>): (v: Text)
    ensures |v| == |ps|
    ensures forall j :: 0 <= j < |ps| ==> v[j] == SlabTok(ps[j])
  {
    seq(|ps|, j requires 0 <= j < |ps| => SlabTok(ps[j]))
  }

  lemma {:induction false} SlabLinesVertices(ps: seq<XY>, k: nat)
    requires k <= |ps|
    ensures Vertices(SlabLines(ps, k)) == SlabToks(ps[..k])
  {
    if k > 0 {
      SlabLinesVertices(ps, k - 1);
      VerticesSplit(SlabLines(ps, k - 1), [SlabTok(ps[k - 1]), Lit(", ")]);
      VerticesCons(Lit(", "), []);
      VerticesCons(SlabTok(ps[k - 1]), [Lit(", ")]);
      assert ps[..k] == ps[..k - 1] + [ps[k - 1]];
    }
  }

  /** The slab is swept over [-t/2, t/2] (the top end raised by a factor
      1.000001), centred on the origin before it is moved: its corners are
      symmetric about the origin. */
  lemma SlabCentred(lv: Lattice, thickness: real, tr: (real, real, real))
    ensures var ps := Shift(SlabCorners(lv), SlabHalfwidth(lv));
      var t := SlabText(thickness, ps, tr);
      && t[1] == Num(-0.5 * thickness, Plain) && t[3] == Num(0.5 * thickness * 1.000001, Plain)
      && ps[2] == XY(-ps[0].x, -ps[0].y) && ps[3] == XY(-ps[1].x, -ps[1].y)
  {
  }
}
