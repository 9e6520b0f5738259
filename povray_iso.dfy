/** The isosurface helpers of povray_iso.py.

    create_mesh2 and write_mesh2_params are the same code as in util_iso.py
    except that the union around several mesh2 blocks is closed with
    `\n}\n\n`; they reuse the UtilIso model. slice_isosurface differs: it
    takes the cut as fractions of the unit cell, normalises the caller's
    `cut_at` rows in place, and cuts with a prism instead of a box. */
module PovrayIso {
  import opened Wrappers
  import opened Text
  import opened UtilIso

  // ---------------------------------------------------------------------
  // create_mesh2 (povray_iso.py:27-156)
  // ---------------------------------------------------------------------

  /** The text closing the union of several mesh2 blocks in this file. */
  const UnionEnd := "\n}\n\n"

  /** create_mesh2 of povray_iso.py: the cutoffs are clamped in place, the
      cmap limits defaulted in place, and one mesh2 block is written per
      distinct clamped cutoff, unless marching cubes rejects one outside the
      field's range. */
  method CreateMesh2(field: seq<real>, cutoffs: array<real>, transmit: real, cmapLimits: array<Limit>,
                     mc: real -> MeshData, cm: real -> Rgba) returns (r: Result<Text>)
    modifies cutoffs, cmapLimits
    ensures field == [] ==> r == Err(ValueError) && unchanged(cutoffs) && unchanged(cmapLimits)
    ensures field != [] ==>
      forall i :: 0 <= i < cutoffs.Length ==>
        cutoffs[i] == Clamp(old(cutoffs[i]), SeqMin(field), SeqMax(field))
    ensures field != [] ==>
      cmapLimits[..] == CmapDefaults(old(cmapLimits[..]), SortedSet(cutoffs[..])).1
    ensures field != [] && CmapDefaults(old(cmapLimits[..]), SortedSet(cutoffs[..])).0.Err? ==>
      r == CmapDefaults(old(cmapLimits[..]), SortedSet(cutoffs[..])).0.PropagateFailure()
    ensures field != [] && CmapDefaults(old(cmapLimits[..]), SortedSet(cutoffs[..])).0.Ok? ==>
      r == MeshResult(SortedSet(cutoffs[..]), SeqMin(field), SeqMax(field), transmit, mc, cm, UnionEnd)
  {
    r := CreateMesh2Closed(field, cutoffs, transmit, cmapLimits, mc, cm, UnionEnd);
  }

  /** In this file too the union is opened and closed exactly when there
      are several cutoffs, with one mesh2 block per cutoff. */
  lemma PovrayMeshText(cs: seq<real>, transmit: real, mc: real -> MeshData, cm: real -> Rgba)
    ensures Count(MeshText(cs, transmit, mc, cm, UnionEnd), Lit("\n\nmesh2 {")) == |cs|
    ensures Count(MeshText(cs, transmit, mc, cm, UnionEnd), Lit("\nunion {")) == (if |cs| > 1 then 1 else 0)
    ensures var t := MeshText(cs, transmit, mc, cm, UnionEnd); |cs| > 1 ==> |t| > 0 && t[|t| - 1] == Lit(UnionEnd)
  {
    MeshTextBlocks(cs, transmit, mc, cm, UnionEnd);
    MeshTextUnion(cs, transmit, mc, cm, UnionEnd);
    MeshTextEnds(cs, transmit, mc, cm, UnionEnd);
  }

  // ---------------------------------------------------------------------
  // slice_isosurface: normalising cut_at (povray_iso.py:216-231)
  // ---------------------------------------------------------------------

  const MinMessage := "Error: min(cut_at[i]) must be >= 0"
  const MaxMessage := "Error: max(cut_at[i]) must be <= 1"

  /** A bound exactly 0 is pushed to -0.001, a bound exactly 1 to 1.001,
      to avoid artifacts at the faces of the unit cell. */
  function Pad(x: real): real
  {
    var y := if x == 0.0 then x - 0.001 else x;
    if y == 1.0 then y + 0.001 else y
  }

  /** The padded bound leaves [0, 1] only at its ends, and only by 0.001. */
  lemma PadRange(x: real)
    requires 0.0 <= x <= 1.0
    ensures Pad(x) != 0.0 && Pad(x) != 1.0
    ensures -0.001 <= Pad(x) <= 1.001
    ensures 0.0 < x < 1.0 ==> Pad(x) == x
  {
  }

  /** Padding keeps the order of two bounds in [0, 1], strictly. */
  lemma PadOrder(a: real, b: real)
    requires 0.0 <= a <= b <= 1.0
    ensures Pad(a) <= Pad(b)
    ensures a < b ==> Pad(a) < Pad(b)
  {
  }

  /** A bound scaled by the dimension s. */
  function Scale(x: real, s: real): real
  {
    x * s
  }

  /** Scaling by a dimension s >= 0 keeps two padded bounds in order. */
  lemma ScaledOrder(a: real, b: real, s: real)
    requires 0.0 <= a <= b <= 1.0 && s >= 0.0
    ensures Scale(Pad(a), s) <= Scale(Pad(b), s)
  {
    PadOrder(a, b);
    assert (Pad(b) - Pad(a)) * s >= 0.0;
  }

  /** Row i of cut_at as a list. */
  function RowOf(a: array2<real>, i: nat): (row: seq<real>)
    requires i < a.Length0
    reads a
    ensures |row| == a.Length1
    ensures forall j :: 0 <= j < a.Length1 ==> row[j] == a[i, j]
  {
    seq(a.Length1, j requires 0 <= j < a.Length1 reads a => a[i, j])
  }

  /** Some entry of the row is negative / above 1. */
  predicate HasNeg(row: seq<real>)
  {
    exists j :: 0 <= j < |row| && row[j] < 0.0
  }

  predicate HasAbove(row: seq<real>)
  {
    exists j :: 0 <= j < |row| && row[j] > 1.0
  }

  /** Why row i (present, with two bounds) stops the normalisation: an
      assertion on its bounds, or a missing dimension n[i]. */
  function RowError(row: seq<real>, i: nat, n: seq<real>): Option<Error>
  {
    if HasNeg(row) then Some(AssertionError(MinMessage))
    else if HasAbove(row) then Some(AssertionError(MaxMessage))
    else if i >= |n| then Some(IndexError)
    else None
  }

  /** Row i cannot be normalised. */
  predicate Fails(a: array2<real>, i: nat, n: seq<real>)
    reads a
  {
    i >= a.Length0 || a.Length1 < 2 || RowError(RowOf(a, i), i, n).Some?
  }

  /** The first of the rows i..2 that cannot be normalised, or 3. */
  function FirstBad(a: array2<real>, n: seq<real>, i: nat): (k: nat)
    requires i <= 3
    reads a
    decreases 3 - i
    ensures i <= k <= 3
    ensures k < 3 ==> Fails(a, k, n)
    ensures forall p :: i <= p < k ==> !Fails(a, p, n)
  {
    if i == 3 then 3 else if Fails(a, i, n) then i else FirstBad(a, n, i + 1)
  }

  /** The error slice_isosurface raises, if any: the one of the first row
      that cannot be normalised. */
  function CutError(a: array2<real>, n: seq<real>): Option<Error>
    reads a
  {
    var k := FirstBad(a, n, 0);
    if k == 3 then None
    else if k >= a.Length0 || a.Length1 < 2 then Some(IndexError)
    else RowError(RowOf(a, k), k, n)
  }

  /** Without an error all three rows are present with two bounds in
      [0, 1] each, and n has the three dimensions. */
  lemma NoCutError(a: array2<real>, n: seq<real>)
    requires CutError(a, n).None?
    ensures a.Length0 >= 3 && a.Length1 >= 2 && |n| >= 3
    ensures forall p, q :: 0 <= p < 3 && 0 <= q < a.Length1 ==> 0.0 <= a[p, q] <= 1.0
  {
    var k := FirstBad(a, n, 0);
    assert k == 3;
    assert !Fails(a, 0, n) && !Fails(a, 1, n) && !Fails(a, 2, n);
    forall p, q | 0 <= p < 3 && 0 <= q < a.Length1
      ensures 0.0 <= a[p, q] <= 1.0
    {
      assert RowOf(a, p)[q] == a[p, q];
    }
  }

  /** Conversely, three rows with two bounds in [0, 1] and three dimensions
      raise nothing. */
  lemma NoCutErrorConverse(a: array2<real>, n: seq<real>)
    requires a.Length0 >= 3 && a.Length1 >= 2 && |n| >= 3
    requires forall p, q :: 0 <= p < 3 && 0 <= q < a.Length1 ==> 0.0 <= a[p, q] <= 1.0
    ensures CutError(a, n).None?
  {
    forall p | 0 <= p < 3
      ensures !Fails(a, p, n)
    {
      var row := RowOf(a, p);
      assert !HasNeg(row) by {
        forall j | 0 <= j < |row| ensures row[j] >= 0.0 { assert row[j] == a[p, j]; }
      }
      assert !HasAbove(row) by {
        forall j | 0 <= j < |row| ensures row[j] <= 1.0 { assert row[j] == a[p, j]; }
      }
    }
    assert FirstBad(a, n, 2) == 3;
    assert FirstBad(a, n, 1) == 3;
    assert FirstBad(a, n, 0) == 3;
  }

  /** How far a row of cut_at gets: untouched, bounds ordered, ordered and
      padded, or ordered, padded and scaled. */
  datatype Stage = Untouched | Ordered | Padded | Scaled

  function RowStage(a: array2<real>, n: seq<real>, p: nat): Stage
    reads a
  {
    var k := FirstBad(a, n, 0);
    if p < k then Scaled
    else if p > k || k == 3 || k >= a.Length0 || a.Length1 < 2 then Untouched
    else if RowError(RowOf(a, k), k, n) == Some(IndexError) then Padded
    else Ordered
  }

  /** The stage a row reaches when its own pass ends with `r`. */
  function StageOf(r: Option<Error>): Stage
  {
    if r == None then Scaled else if r == Some(IndexError) then Padded else Ordered
  }

  function Lower(x0: real, x1: real): real
  {
    if x0 > x1 then x1 else x0
  }

  function Upper(x0: real, x1: real): real
  {
    if x0 > x1 then x0 else x1
  }

  /** Entry q of a row whose first two entries were x0, x1 and whose entry q
      was xq, once the row reached stage `st` (`s` is its dimension). */
  function Cell(q: nat, x0: real, x1: real, xq: real, st: Stage, s: real): real
  {
    if q >= 2 || st == Untouched then xq
    else
      var b := if q == 0 then Lower(x0, x1) else Upper(x0, x1);
      match st
      case Ordered => b
      case Padded => Pad(b)
      case Scaled => Scale(Pad(b), s)
      case Untouched => xq
  }

  /** A row that went through every step, from bounds in [0, 1] with a
      dimension s >= 0, ends with its lower bound at most its upper one. */
  lemma ScaledRowOrdered(x0: real, x1: real, s: real)
    requires 0.0 <= x0 <= 1.0 && 0.0 <= x1 <= 1.0 && s >= 0.0
    ensures Cell(0, x0, x1, x0, Scaled, s) <= Cell(1, x0, x1, x1, Scaled, s)
  {
    ScaledOrder(Lower(x0, x1), Upper(x0, x1), s);
  }

  /** The minimum of row i, as Python's min() computes it on that list. */
  method RowMin(a: array2<real>, i: nat) returns (m: real)
    requires i < a.Length0 && a.Length1 > 0
    ensures forall j :: 0 <= j < a.Length1 ==> m <= a[i, j]
    ensures exists j :: 0 <= j < a.Length1 && a[i, j] == m
  {
    m := a[i, 0];
    for j := 1 to a.Length1
      invariant forall q :: 0 <= q < j ==> m <= a[i, q]
      invariant exists q :: 0 <= q < j && a[i, q] == m
    {
      if a[i, j] < m {
        m := a[i, j];
      }
    }
  }

  /** The maximum of row i, as Python's max() computes it on that list. */
  method RowMax(a: array2<real>, i: nat) returns (m: real)
    requires i < a.Length0 && a.Length1 > 0
    ensures forall j :: 0 <= j < a.Length1 ==> a[i, j] <= m
    ensures exists j :: 0 <= j < a.Length1 && a[i, j] == m
  {
    m := a[i, 0];
    for j := 1 to a.Length1
      invariant forall q :: 0 <= q < j ==> a[i, q] <= m
      invariant exists q :: 0 <= q < j && a[i, q] == m
    {
      if a[i, j] > m {
        m := a[i, j];
      }
    }
  }

  /** Puts the first two entries of row i in the order [min, max]. */
  method OrderRow(a: array2<real>, i: nat)
    requires i < a.Length0 && a.Length1 >= 2
    modifies a
    ensures a[i, 0] == Lower(old(a[i, 0]), old(a[i, 1])) && a[i, 1] == Upper(old(a[i, 0]), old(a[i, 1]))
    ensures forall p, q :: 0 <= p < a.Length0 && 0 <= q < a.Length1 && (p != i || q >= 2) ==>
      a[p, q] == old(a[p, q])
  {
    if a[i, 0] > a[i, 1] {
      a[i, 0], a[i, 1] := a[i, 1], a[i, 0];
    }
  }

  /** The inner loop of the normalisation: pads both bounds of row i. */
  method PadRow(a: array2<real>, i: nat)
    requires i < a.Length0 && a.Length1 >= 2
    modifies a
    ensures a[i, 0] == Pad(old(a[i, 0])) && a[i, 1] == Pad(old(a[i, 1]))
    ensures forall p, q :: 0 <= p < a.Length0 && 0 <= q < a.Length1 && (p != i || q >= 2) ==>
      a[p, q] == old(a[p, q])
  {
    for j := 0 to 2
      invariant forall p, q :: 0 <= p < a.Length0 && 0 <= q < a.Length1 && (p != i || q >= j) ==>
        a[p, q] == old(a[p, q])
      invariant forall q :: 0 <= q < j ==> a[i, q] == Pad(old(a[i, q]))
    {
      if a[i, j] == 0.0 {
        a[i, j] := a[i, j] - 0.001;
      }
      if a[i, j] == 1.0 {
        a[i, j] := a[i, j] + 0.001;
      }
    }
  }

  /** Scales both bounds of row i by the dimension s. */
  method ScaleRow(a: array2<real>, i: nat, s: real)
    requires i < a.Length0 && a.Length1 >= 2
    modifies a
    ensures a[i, 0] == Scale(old(a[i, 0]), s) && a[i, 1] == Scale(old(a[i, 1]), s)
    ensures forall p, q :: 0 <= p < a.Length0 && 0 <= q < a.Length1 && (p != i || q >= 2) ==>
      a[p, q] == old(a[p, q])
  {
    a[i, 0] := a[i, 0] * s;
    a[i, 1] := a[i, 1] * s;
  }

  /** After ordering, row i has a negative entry / an entry above 1 exactly
      when it had one before. */
  lemma OrderedBounds(a: array2<real>, i: nat, row: seq<real>)
    requires i < a.Length0 && a.Length1 >= 2 && |row| == a.Length1
    requires a[i, 0] == Lower(row[0], row[1]) && a[i, 1] == Upper(row[0], row[1])
    requires forall j :: 2 <= j < a.Length1 ==> a[i, j] == row[j]
    ensures (exists j :: 0 <= j < a.Length1 && a[i, j] < 0.0) <==> HasNeg(row)
    ensures (exists j :: 0 <= j < a.Length1 && a[i, j] > 1.0) <==> HasAbove(row)
  {
    if HasNeg(row) {
      var j :| 0 <= j < |row| && row[j] < 0.0;
      if j < 2 {
        assert a[i, 0] < 0.0;
      } else {
        assert a[i, j] < 0.0;
      }
    }
    if HasAbove(row) {
      var j :| 0 <= j < |row| && row[j] > 1.0;
      if j < 2 {
        assert a[i, 1] > 1.0;
      } else {
        assert a[i, j] > 1.0;
      }
    }
    if exists j :: 0 <= j < a.Length1 && a[i, j] < 0.0 {
      var j :| 0 <= j < a.Length1 && a[i, j] < 0.0;
      if j < 2 {
        assert row[0] < 0.0 || row[1] < 0.0;
      } else {
        assert row[j] < 0.0;
      }
    }
    if exists j :: 0 <= j < a.Length1 && a[i, j] > 1.0 {
      var j :| 0 <= j < a.Length1 && a[i, j] > 1.0;
      if j < 2 {
        assert row[0] > 1.0 || row[1] > 1.0;
      } else {
        assert row[j] > 1.0;
      }
    }
  }

  /** One pass of the outer loop of slice_isosurface, on row i. */
  method NormaliseRow(a: array2<real>, i: nat, n: seq<real>) returns (r: Option<Error>)
    requires i < a.Length0 && a.Length1 >= 2
    modifies a
    ensures r == RowError(old(RowOf(a, i)), i, n)
    ensures forall p, q :: 0 <= p < a.Length0 && 0 <= q < a.Length1 && (p != i || q >= 2) ==>
      a[p, q] == old(a[p, q])
    ensures r.Some? && r != Some(IndexError) ==>
      a[i, 0] == Lower(old(a[i, 0]), old(a[i, 1])) && a[i, 1] == Upper(old(a[i, 0]), old(a[i, 1]))
    ensures r == Some(IndexError) ==>
      a[i, 0] == Pad(Lower(old(a[i, 0]), old(a[i, 1]))) && a[i, 1] == Pad(Upper(old(a[i, 0]), old(a[i, 1])))
    ensures r == None ==>
      && i < |n|
      && a[i, 0] == Scale(Pad(Lower(old(a[i, 0]), old(a[i, 1]))), n[i])
      && a[i, 1] == Scale(Pad(Upper(old(a[i, 0]), old(a[i, 1]))), n[i])
  {
    ghost var row := RowOf(a, i);
    ghost var x0, x1 := a[i, 0], a[i, 1];
    OrderRow(a, i);
    OrderedBounds(a, i, row);
    ghost var lo0, hi0 := Lower(x0, x1), Upper(x0, x1);
    assert a[i, 0] == lo0 && a[i, 1] == hi0;
    var lo := RowMin(a, i);
    if !(lo >= 0.0) {
      return Some(AssertionError(MinMessage));
    }
    var hi := RowMax(a, i);
    if !(hi <= 1.0) {
      return Some(AssertionError(MaxMessage));
    }
    PadRow(a, i);
    ghost var p0, p1 := a[i, 0], a[i, 1];
    assert p0 == Pad(lo0) && p1 == Pad(hi0);
    if i >= |n| {
      return Some(IndexError);
    }
    ScaleRow(a, i, n[i]);
    assert a[i, 0] == Scale(p0, n[i]) && a[i, 1] == Scale(p1, n[i]);
    r := None;
  }

  /** The normalising loop of slice_isosurface over the first three rows of
      cut_at. It stops at the first row that cannot be normalised; the rows
      before it are ordered, padded and scaled, that row is left as far as
      it got, and the rest of cut_at is unchanged. */
  method NormaliseCut(a: array2<real>, n: seq<real>) returns (r: Option<Error>)
    modifies a
    ensures r == old(CutError(a, n))
    ensures a.Length1 < 2 ==> unchanged(a)
    ensures a.Length1 >= 2 ==> forall p, q :: 0 <= p < a.Length0 && 0 <= q < a.Length1 ==>
      a[p, q] == Cell(q, old(a[p, 0]), old(a[p, 1]), old(a[p, q]), old(RowStage(a, n, p)),
                      if p < |n| then n[p] else 0.0)
  {
    ghost var k := FirstBad(a, n, 0);
    if a.Length0 == 0 || a.Length1 < 2 {
      return Some(IndexError);
    }
    for i := 0 to 3
      invariant i <= k
      invariant forall p, q :: 0 <= p < a.Length0 && 0 <= q < a.Length1 ==>
        a[p, q] == Cell(q, old(a[p, 0]), old(a[p, 1]), old(a[p, q]), if p < i then Scaled else Untouched,
                        if p < |n| then n[p] else 0.0)
    {
      if i >= a.Length0 {
        assert old(Fails(a, i, n));
        return Some(IndexError);
      }
      assert RowOf(a, i) == old(RowOf(a, i));
      r := NormaliseRow(a, i, n);
      if r.Some? {
        assert old(Fails(a, i, n));
        return;
      }
    }
    r := None;
  }

  // ---------------------------------------------------------------------
  // slice_isosurface: the prism (povray_iso.py:233-262)
  // ---------------------------------------------------------------------

  /** A (y, z) vertex of the prism's cross-section. */
  datatype Point = Point(y: real, z: real)

  /** The cross-section rectangle, corner by corner. */
  function Corners(y0: real, y1: real, z0: real, z1: real): (ps: seq<Point>)
    ensures |ps| == 4
  {
    [Point(y0, z0), Point(y1, z0), Point(y1, z1), Point(y0, z1)]
  }

  /** `<y, z>` with six decimals. */
  function PointTok(p: Point): Tok
  {
    Vec([p.y, p.z], Fixed(6))
  }

  /** The points for the first k vertices, each followed by ", ". */
  function PointLines(ps: seq<Point>, k: nat): Text
    requires k <= |ps|
  {
    if k == 0 then [] else PointLines(ps, k - 1) + [Lit("\n\t"), PointTok(ps[k - 1]), Lit(", ")]
  }

  function PrismHeader(x0: real, x1: real, count: int): Text
  {
    [Lit("\nprism { \n\tlinear_sweep\n\tlinear_spline"), Lit("\n\t"), Num(x0, Plain), Lit(", "),
     Num(x1, Plain), Lit(", "), Int(count)]
  }

  /** The prism: sweep extent, number of vertices, the vertices and the
      first one again to close the outline. */
  function PrismText(x0: real, x1: real, ps: seq<Point>, subtractBox: bool): Text
    requires ps != []
  {
    PrismHeader(x0, x1, |ps| + 1) + PointLines(ps, |ps|) + PrismClose(ps[0], subtractBox)
  }

  /** The first vertex again, the optional inverse and the closing brace. */
  function PrismClose(first: Point, subtractBox: bool): Text
  {
    [Lit("\n\t"), PointTok(first)] + (if subtractBox then [Lit("\n\tinverse")] else []) + [Lit("\n\t}")]
  }

  /** The prism-writing part of slice_isosurface, with its loop over the
      points. */
  method WritePrism(x0: real, x1: real, ps: seq<Point>, subtractBox: bool) returns (t: Text)
    requires ps != []
    ensures t == PrismText(x0, x1, ps, subtractBox)
  {
    t := PrismHeader(x0, x1, |ps| + 1);
    for i := 0 to |ps|
      invariant t == PrismHeader(x0, x1, |ps| + 1) + PointLines(ps, i)
    {
      t := t + [Lit("\n\t"), PointTok(ps[i]), Lit(", ")];
    }
    ghost var body := t;
    t := t + [Lit("\n\t"), PointTok(ps[0])];
    if subtractBox {
      t := t + [Lit("\n\tinverse")];
    }
    t := t + [Lit("\n\t}")];
    assert t == body + PrismClose(ps[0], subtractBox);
  }

  /** The mesh inside an intersection with the prism. */
  function PrismSlice(mesh: Text, prism: Text): Text
  {
    [Lit("intersection {")] + mesh + prism + [Lit("\n}\n\n\t")]
  }

  /** The vertices of an outline, as tokens. */
  function Outline(ps: seq<Point>): (v: Text)
    ensures |v| == |ps|
    ensures forall j :: 0 <= j < |ps| ==> v[j] == PointTok(ps[j])
  {
    seq(|ps|, j requires 0 <= j < |ps| => PointTok(ps[j]))
  }

  /** The point lines list the first k vertices in order. */
  lemma {:induction false} PointLinesVertices(ps: seq<Point>, k: nat)
    requires k <= |ps|
    ensures Vertices(PointLines(ps, k)) == Outline(ps[..k])
  {
    if k > 0 {
      PointLinesVertices(ps, k - 1);
      PointLineVertex(ps[k - 1]);
      VerticesSnoc(PointLines(ps, k - 1), [Lit("\n\t"), PointTok(ps[k - 1]), Lit(", ")], PointTok(ps[k - 1]));
      assert ps[..k] == ps[..k - 1] + [ps[k - 1]];
      OutlineSnoc(ps[..k - 1], ps[k - 1]);
    }
  }

  lemma PointLineVertex(p: Point)
    ensures Vertices([Lit("\n\t"), PointTok(p), Lit(", ")]) == [PointTok(p)]
  {
    VerticesCons(Lit(", "), []);
    VerticesCons(PointTok(p), [Lit(", ")]);
    VerticesCons(Lit("\n\t"), [PointTok(p), Lit(", ")]);
  }

  /** The inverse flag is not among the point lines. */
  lemma {:induction false} PointLinesAvoid(ps: seq<Point>, k: nat)
    requires k <= |ps|
    ensures Lit("\n\tinverse") !in PointLines(ps, k)
  {
    if k > 0 {
      PointLinesAvoid(ps, k - 1);
    }
  }

  /** The prism lists the cross-section's vertices in order and closes the
      outline with the first vertex again. */
  lemma PrismVertices(x0: real, x1: real, ps: seq<Point>, subtractBox: bool)
    requires ps != []
    ensures Vertices(PrismText(x0, x1, ps, subtractBox)) == Outline(ps + [ps[0]])
  {
    var head := PrismHeader(x0, x1, |ps| + 1);
    VerticesNone(head);
    PointLinesVertices(ps, |ps|);
    assert ps[..|ps|] == ps;
    PrismCloseVertices(ps[0], subtractBox);
    VerticesAround(head, PointLines(ps, |ps|), PrismClose(ps[0], subtractBox), PointTok(ps[0]));
    OutlineSnoc(ps, ps[0]);
  }

  lemma OutlineSnoc(ps: seq<Point>, p: Point)
    ensures Outline(ps + [p]) == Outline(ps) + [PointTok(p)]
  {
  }

  lemma PrismCloseVertices(first: Point, subtractBox: bool)
    ensures Vertices(PrismClose(first, subtractBox)) == [PointTok(first)]
  {
    var tail := (if subtractBox then [Lit("\n\tinverse")] else []) + [Lit("\n\t}")];
    assert PrismClose(first, subtractBox) == [Lit("\n\t")] + ([PointTok(first)] + tail);
    VerticesNone(tail);
    VerticesCons(PointTok(first), tail);
    VerticesCons(Lit("\n\t"), [PointTok(first)] + tail);
  }

  /** The prism's count is the number of vertices it lists, and its sweep
      runs from x0 to x1. */
  lemma PrismCount(x0: real, x1: real, ps: seq<Point>, subtractBox: bool)
    requires ps != []
    ensures var t := PrismText(x0, x1, ps, subtractBox);
      |t| > 6 && t[6] == Int(|Vertices(t)|) && t[2] == Num(x0, Plain) && t[4] == Num(x1, Plain)
  {
    PrismVertices(x0, x1, ps, subtractBox);
  }

  /** `inverse` closes the prism exactly when the box is subtracted. */
  lemma PrismInverse(x0: real, x1: real, ps: seq<Point>, subtractBox: bool)
    requires ps != []
    ensures Lit("\n\tinverse") in PrismText(x0, x1, ps, subtractBox) <==> subtractBox
  {
    var head := PrismHeader(x0, x1, |ps| + 1);
    var lines := PointLines(ps, |ps|);
    var close := PrismClose(ps[0], subtractBox);
    PointLinesAvoid(ps, |ps|);
    InSplit(head + lines, close, Lit("\n\tinverse"));
    InSplit(head, lines, Lit("\n\tinverse"));
    if subtractBox {
      assert close[2] == Lit("\n\tinverse");
    }
  }

  /** The sliced text is the mesh, verbatim, inside an intersection with the
      prism; the prism adds `inverse` exactly when the box is subtracted. */
  lemma PrismSliceShape(mesh: Text, x0: real, x1: real, ps: seq<Point>, subtractBox: bool)
    requires ps != []
    ensures var t := PrismSlice(mesh, PrismText(x0, x1, ps, subtractBox));
      && t[..|mesh| + 1] == [Lit("intersection {")] + mesh
      && t[|t| - 1] == Lit("\n}\n\n\t")
      && (Lit("\n\tinverse") in t <==> Lit("\n\tinverse") in mesh || subtractBox)
  {
    var x := Lit("\n\tinverse");
    var prism := PrismText(x0, x1, ps, subtractBox);
    var t := PrismSlice(mesh, prism);
    assert t == ([Lit("intersection {")] + mesh) + (prism + [Lit("\n}\n\n\t")]);
    PrismInverse(x0, x1, ps, subtractBox);
    InSplit([Lit("intersection {")] + mesh + prism, [Lit("\n}\n\n\t")], x);
    InSplit([Lit("intersection {")] + mesh, prism, x);
    InSplit([Lit("intersection {")], mesh, x);
  }

  /** The cross-section of slice_isosurface has four corners; the prism
      lists five vertices, the last equal to the first. */
  lemma CornersClosed(y0: real, y1: real, z0: real, z1: real)
    ensures var v := Outline(Corners(y0, y1, z0, z1) + [Point(y0, z0)]);
      |v| == 5 && v[4] == v[0] && v[1] == PointTok(Point(y1, z0)) && v[3] == PointTok(Point(y0, z1))
  {
  }

  /** slice_isosurface of povray_iso.py. `cutAt` is the caller's cut_at,
      normalised in place; `n` the field's dimensions. */
  method SliceIsosurface(mesh: Text, n: seq<real>, cutAt: array2<real>, subtractBox: bool)
    returns (r: Result<Text>)
    modifies cutAt
    ensures r.Err? <==> old(CutError(cutAt, n)).Some?
    ensures r.Err? ==> r.error == old(CutError(cutAt, n)).value
    ensures cutAt.Length1 < 2 ==> unchanged(cutAt)
    ensures cutAt.Length1 >= 2 ==> forall p, q :: 0 <= p < cutAt.Length0 && 0 <= q < cutAt.Length1 ==>
      cutAt[p, q] == Cell(q, old(cutAt[p, 0]), old(cutAt[p, 1]), old(cutAt[p, q]), old(RowStage(cutAt, n, p)),
                          if p < |n| then n[p] else 0.0)
    ensures r.Ok? ==>
      && cutAt.Length0 >= 3 && cutAt.Length1 >= 2
      && r.value == PrismSlice(mesh, PrismText(cutAt[0, 0], cutAt[0, 1],
           Corners(cutAt[1, 0], cutAt[1, 1], cutAt[2, 0], cutAt[2, 1]), subtractBox))
  {
    if CutError(cutAt, n).None? {
      NoCutError(cutAt, n);
    }
    var e := NormaliseCut(cutAt, n);
    if e.Some? {
      return Err(e.value);
    }
    var points := Corners(cutAt[1, 0], cutAt[1, 1], cutAt[2, 0], cutAt[2, 1]);
    var slice := WritePrism(cutAt[0, 0], cutAt[0, 1], points, subtractBox);
    r := Ok(PrismSlice(mesh, slice));
  }
}
