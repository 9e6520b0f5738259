/** util_iso.py: isosurfaces as POV-Ray mesh2 objects. The cutoffs are
    clamped into the field's range, sorted and deduplicated; each surviving
    cutoff becomes one mesh2 block, inside a union when there are several.
    povray_iso.py carries the same create_mesh2 and write_mesh2_params; its
    version differs only in how the union is closed, so both are modelled
    here, and PovrayIso passes its own closing text. */
module UtilIso {
  import opened Wrappers
  import opened Text

  // ---------------------------------------------------------------------
  // Oracles
  // ---------------------------------------------------------------------

  /** A row of one of the N x 3 arrays marching cubes returns. */
  datatype Triple = Triple(x: real, y: real, z: real)

  /** Vertex coordinates, face vertex indices and vertex normals returned by
      marching_cubes_lewiner for one isovalue of the (fixed) field. */
  datatype MeshData = MeshData(corners: seq<Triple>, faces: seq<Triple>, normals: seq<Triple>)

  /** The RGBA tuple a matplotlib colormap returns. */
  datatype Rgba = Rgba(r: real, g: real, b: real, a: real)

  // ---------------------------------------------------------------------
  // Field extrema and cutoff clamping (util_iso.py:56-63)
  // ---------------------------------------------------------------------

  function SeqMin(s: seq<real>): (m: real)
    requires s != []
    ensures m in s
    ensures forall x :: x in s ==> m <= x
  {
    if |s| == 1 then s[0]
    else
      var rest := SeqMin(s[1..]);
      assert forall x :: x in s ==> x == s[0] || x in s[1..];
      if s[0] <= rest then s[0] else rest
  }

  function SeqMax(s: seq<real>): (m: real)
    requires s != []
    ensures m in s
    ensures forall x :: x in s ==> x <= m
  {
    if |s| == 1 then s[0]
    else
      var rest := SeqMax(s[1..]);
      assert forall x :: x in s ==> x == s[0] || x in s[1..];
      if s[0] >= rest then s[0] else rest
  }

  /** A cutoff at or below the field minimum becomes 1.0001 times it;
      otherwise one at or above the maximum becomes 0.9999 times it. */
  function Clamp(x: real, fieldMin: real, fieldMax: real): real
  {
    if x <= fieldMin then 1.0001 * fieldMin
    else if x >= fieldMax then 0.9999 * fieldMax
    else x
  }

  /** The loop that clamps the caller's cutoff list in place. */
  method ClampCutoffs(cutoffs: array<real>, fieldMin: real, fieldMax: real)
    modifies cutoffs
    ensures forall i :: 0 <= i < cutoffs.Length ==>
      cutoffs[i] == Clamp(old(cutoffs[i]), fieldMin, fieldMax)
  {
    var i := 0;
    while i < cutoffs.Length
      invariant 0 <= i <= cutoffs.Length
      invariant forall k :: 0 <= k < i ==> cutoffs[k] == Clamp(old(cutoffs[k]), fieldMin, fieldMax)
      invariant forall k :: i <= k < cutoffs.Length ==> cutoffs[k] == old(cutoffs[k])
    {
      if cutoffs[i] <= fieldMin {
        cutoffs[i] := 1.0001 * fieldMin;
      } else if cutoffs[i] >= fieldMax {
        cutoffs[i] := 0.9999 * fieldMax;
      }
      i := i + 1;
    }
  }

  /** The three cases of the clamp. */
  lemma ClampCases(x: real, fieldMin: real, fieldMax: real)
    ensures x <= fieldMin ==> Clamp(x, fieldMin, fieldMax) == 1.0001 * fieldMin
    ensures fieldMin < x && x >= fieldMax ==> Clamp(x, fieldMin, fieldMax) == 0.9999 * fieldMax
    ensures fieldMin < x < fieldMax ==> Clamp(x, fieldMin, fieldMax) == x
  {
  }

  /** With a positive field minimum and the two nudged extrema still inside
      the range, every clamped cutoff lies strictly inside the field's range,
      which is what marching cubes needs. */
  lemma ClampStrictlyInside(x: real, fieldMin: real, fieldMax: real)
    requires 0.0 < fieldMin
    requires 1.0001 * fieldMin < fieldMax && fieldMin < 0.9999 * fieldMax
    ensures fieldMin < Clamp(x, fieldMin, fieldMax) < fieldMax
  {
  }

  /** The nudge is multiplicative, so with a negative minimum the clamped
      value falls below the minimum instead of above it. */
  lemma ClampOutsideForNegativeMin()
    ensures Clamp(-2.0, -1.0, 1.0) == -1.0001
    ensures Clamp(-2.0, -1.0, 1.0) < -1.0
  {
  }

  // ---------------------------------------------------------------------
  // sorted(set(cutoffs)) (util_iso.py:66)
  // ---------------------------------------------------------------------

  predicate StrictlyIncreasing(s: seq<real>)
  {
    forall i, j :: 0 <= i < j < |s| ==> s[i] < s[j]
  }

  lemma ConsIncreasing(a: real, s: seq<real>)
    requires StrictlyIncreasing(s)
    requires forall y :: y in s ==> a < y
    ensures StrictlyIncreasing([a] + s)
  {
    forall i, j | 0 <= i < j < |[a] + s|
      ensures ([a] + s)[i] < ([a] + s)[j]
    {
      assert ([a] + s)[j] == s[j - 1];
      assert s[j - 1] in s;
      if i > 0 {
        assert ([a] + s)[i] == s[i - 1];
      }
    }
  }

  /** Insert `x` into a strictly increasing list, unless it is already there. */
  function Insert(x: real, t: seq<real>): (r: seq<real>)
    requires StrictlyIncreasing(t)
    ensures StrictlyIncreasing(r)
    ensures forall y :: y in r <==> y == x || y in t
  {
    if t == [] then [x]
    else if x < t[0] then
      assert forall y :: y in t ==> x < y by {
        forall y | y in t ensures x < y {
          var k :| 0 <= k < |t| && t[k] == y;
          assert k == 0 || t[0] < t[k];
        }
      }
      ConsIncreasing(x, t);
      [x] + t
    else if x == t[0] then t
    else
      var tail := t[1..];
      assert StrictlyIncreasing(tail);
      var rest := Insert(x, tail);
      assert forall y :: y in t <==> y == t[0] || y in tail;
      assert forall y :: y in tail ==> t[0] < y;
      assert forall y :: y in rest ==> t[0] < y;
      ConsIncreasing(t[0], rest);
      [t[0]] + rest
  }

  /** The distinct values of `s`, in ascending order. */
  function SortedSet(s: seq<real>): (r: seq<real>)
    ensures StrictlyIncreasing(r)
    ensures forall y :: y in r <==> y in s
    ensures |r| <= |s|
  {
    if s == [] then []
    else
      var rest := SortedSet(s[1..]);
      assert forall y :: y in s <==> y == s[0] || y in s[1..];
      var r := Insert(s[0], rest);
      assert |r| <= |rest| + 1 by { InsertLength(s[0], rest); }
      r
  }

  lemma {:induction false} InsertLength(x: real, t: seq<real>)
    requires StrictlyIncreasing(t)
    ensures |Insert(x, t)| == if x in t then |t| else |t| + 1
  {
    if t != [] && x > t[0] {
      InsertLength(x, t[1..]);
      assert x in t <==> x in t[1..];
    }
  }

  /** Sorting the distinct values of a list that is already strictly
      increasing gives it back unchanged. */
  lemma {:induction false} SortedSetIdempotent(s: seq<real>)
    requires StrictlyIncreasing(s)
    ensures SortedSet(s) == s
  {
    if s != [] {
      SortedSetIdempotent(s[1..]);
      assert s[0] !in s[1..];
      if |s| > 1 {
        assert s[0] < s[1..][0];
      }
    }
  }

  /** In a strictly increasing list the minimum is the first element and the
      maximum the last. */
  lemma ExtremesOfIncreasing(s: seq<real>)
    requires s != [] && StrictlyIncreasing(s)
    ensures SeqMin(s) == s[0] && SeqMax(s) == s[|s| - 1]
  {
    assert s[0] in s && s[|s| - 1] in s;
  }

  // ---------------------------------------------------------------------
  // Colormap limits (util_iso.py:73-76)
  // ---------------------------------------------------------------------

  /** An entry of cmap_limits: a string placeholder or a number. */
  datatype Limit = Label(s: string) | Level(r: real)

  /** A string entry takes the given extreme (ValueError when the cutoff
      list is empty, from min() or max()); a numeric entry is kept. */
  function Defaulted(l: Limit, extreme: Option<real>): (r: Result<Limit>)
    ensures l.Level? ==> r == Ok(l)
    ensures l.Label? && extreme.Some? ==> r == Ok(Level(extreme.value))
    ensures l.Label? && extreme.None? ==> r == Err(ValueError)
  {
    if l.Label? then
      if extreme.None? then Err(ValueError) else Ok(Level(extreme.value))
    else Ok(l)
  }

  function MinOf(cs: seq<real>): Option<real>
  {
    if cs == [] then None else Some(SeqMin(cs))
  }

  function MaxOf(cs: seq<real>): Option<real>
  {
    if cs == [] then None else Some(SeqMax(cs))
  }

  /** The status and the new contents of cmap_limits once its first two
      entries are defaulted: IndexError when an entry is missing, the
      error of min() or max() on no cutoffs, the first entry kept updated
      when the second one fails. */
  function CmapDefaults(ls: seq<Limit>, cs: seq<real>): (res: (Result<()>, seq<Limit>))
    ensures |res.1| == |ls|
  {
    if |ls| == 0 then (Err(IndexError), ls)
    else match Defaulted(ls[0], MinOf(cs))
      case Err(e) => (Err(e), ls)
      case Ok(l0) =>
        if |ls| == 1 then (Err(IndexError), [l0])
        else match Defaulted(ls[1], MaxOf(cs))
          case Err(e) => (Err(e), [l0] + ls[1..])
          case Ok(l1) => (Ok(()), [l0, l1] + ls[2..])
  }

  /** With at least two entries and some cutoffs, defaulting succeeds: a
      string entry becomes the smallest (first) or largest (second) cutoff,
      a numeric one and every later entry is kept. */
  lemma CmapDefaultsOk(ls: seq<Limit>, cs: seq<real>)
    requires |ls| >= 2 && cs != []
    ensures var (r, out) := CmapDefaults(ls, cs);
      && r == Ok(())
      && out[0] == (if ls[0].Label? then Level(SeqMin(cs)) else ls[0])
      && out[1] == (if ls[1].Label? then Level(SeqMax(cs)) else ls[1])
      && out[2..] == ls[2..]
  {
  }

  /** Without cutoffs a string entry makes min() or max() fail; numeric
      entries need no cutoffs. */
  lemma CmapDefaultsNoCutoffs(ls: seq<Limit>)
    requires |ls| >= 2
    ensures CmapDefaults(ls, []).0.Ok? <==> ls[0].Level? && ls[1].Level?
    ensures CmapDefaults(ls, []).0.Err? ==> CmapDefaults(ls, []).0 == Err(ValueError)
  {
  }

  /** Defaults the first two entries of the caller's cmap_limits in place. */
  method SetCmapLimits(limits: array<Limit>, cutoffs: seq<real>) returns (r: Result<()>)
    modifies limits
    ensures r == CmapDefaults(old(limits[..]), cutoffs).0
    ensures limits[..] == CmapDefaults(old(limits[..]), cutoffs).1
  {
    ghost var ls := limits[..];
    if limits.Length == 0 {
      return Err(IndexError);
    }
    if limits[0].Label? {
      if cutoffs == [] {
        return Err(ValueError);
      }
      limits[0] := Level(SeqMin(cutoffs));
    }
    if limits.Length == 1 {
      return Err(IndexError);
    }
    if limits[1].Label? {
      if cutoffs == [] {
        return Err(ValueError);
      }
      limits[1] := Level(SeqMax(cutoffs));
    }
    r := Ok(());
  }

  /** After sorting, the defaulted limits are the first and last cutoff, so
      they span every cutoff. */
  lemma DefaultedLimitsSpanCutoffs(cs: seq<real>)
    requires cs != [] && StrictlyIncreasing(cs)
    ensures Defaulted(Label("a"), MinOf(cs)) == Ok(Level(cs[0]))
    ensures Defaulted(Label("b"), MaxOf(cs)) == Ok(Level(cs[|cs| - 1]))
    ensures forall c :: c in cs ==> cs[0] <= c <= cs[|cs| - 1]
  {
    ExtremesOfIncreasing(cs);
  }

  // ---------------------------------------------------------------------
  // write_mesh2_params (util_iso.py:151-179; povray_iso.py:159-186)
  // ---------------------------------------------------------------------

  /** `<x, y, z>` with five decimals. */
  function TripleTok(v: Triple): Tok
  {
    Vec([v.x, v.y, v.z], Fixed(5))
  }

  /** Whether `j` is even, counted down in steps of two. */
  predicate Even(j: nat)
  {
    if j < 2 then j == 0 else Even(j - 2)
  }

  lemma {:induction false} EvenIsMod(j: nat)
    ensures Even(j) <==> j % 2 == 0
  {
    if j >= 2 {
      EvenIsMod(j - 2);
    }
  }

  /** The j-th triple, preceded by a line break for an even index and
      followed by ", " unless it is the last. */
  function Item(values: seq<Triple>, j: nat): (t: Text)
    requires j < |values|
  {
    (if Even(j) then [Lit("\n\t\t")] else [])
    + [TripleTok(values[j])]
    + (if j != |values| - 1 then [Lit(", ")] else [])
  }

  /** The items for the first `k` values. */
  function Items(values: seq<Triple>, k: nat): Text
    requires k <= |values|
  {
    if k == 0 then [] else Items(values, k - 1) + Item(values, k - 1)
  }

  function Mesh2Header(parameter: string, count: nat): Text
  {
    [Lit("\n\t"), Txt(parameter), Lit(" {"), Lit("\n\t\t"), Int(count)]
  }

  /** The text write_mesh2_params returns. */
  function Mesh2Params(parameter: string, values: seq<Triple>): Text
  {
    Mesh2Header(parameter, |values|) + Items(values, |values|) + [Lit("\n\t\t}")]
  }

  /** write_mesh2_params opens with the parameter name and the number of
      triples and ends with the closing brace. */
  lemma Mesh2ParamsFrame(parameter: string, values: seq<Triple>)
    ensures var t := Mesh2Params(parameter, values);
      && |t| >= 6
      && t[..5] == Mesh2Header(parameter, |values|)
      && t[|t| - 1] == Lit("\n\t\t}")
  {
  }

  /** write_mesh2_params; `valuesPerLine` is accepted and ignored, as in the
      source. */
  method WriteMesh2Params(parameter: string, values: seq<Triple>, valuesPerLine: int)
    returns (t: Text)
    ensures t == Mesh2Params(parameter, values)
  {
    t := Mesh2Header(parameter, |values|);
    var j := 0;
    while j < |values|
      invariant 0 <= j <= |values|
      invariant t == Mesh2Header(parameter, |values|) + Items(values, j)
    {
      EvenIsMod(j);
      if j % 2 == 0 {
        t := t + [Lit("\n\t\t")];
      }
      t := t + [Vec([values[j].x, values[j].y, values[j].z], Fixed(5))];
      if j != |values| - 1 {
        t := t + [Lit(", ")];
      }
      j := j + 1;
    }
    t := t + [Lit("\n\t\t}")];
  }

  /** The triple a token prints, if it is a three-entry vector. */
  function TripleOf(x: Tok): seq<Triple>
  {
    match x
    case Vec(xs, _) => if |xs| == 3 then [Triple(xs[0], xs[1], xs[2])] else []
    case _ => []
  }

  /** Reads back the three-entry vectors printed in `t`, in order. */
  function DecodeTriples(t: Text): seq<Triple>
  {
    if t == [] then [] else DecodeTriples(t[..|t| - 1]) + TripleOf(t[|t| - 1])
  }

  lemma {:induction false} DecodeTriplesAppend(a: Text, b: Text)
    ensures DecodeTriples(a + b) == DecodeTriples(a) + DecodeTriples(b)
    decreases |b|
  {
    if b == [] {
      assert a + b == a;
    } else {
      assert (a + b)[..|a + b| - 1] == a + b[..|b| - 1];
      DecodeTriplesAppend(a, b[..|b| - 1]);
    }
  }

  lemma ItemDecodes(values: seq<Triple>, j: nat)
    requires j < |values|
    ensures DecodeTriples(Item(values, j)) == [values[j]]
  {
    var pre: Text := if Even(j) then [Lit("\n\t\t")] else [];
    var post: Text := if j != |values| - 1 then [Lit(", ")] else [];
    DecodeTriplesAppend(pre + [TripleTok(values[j])], post);
    DecodeTriplesAppend(pre, [TripleTok(values[j])]);
    assert DecodeTriples([TripleTok(values[j])]) == [values[j]] by {
      assert [TripleTok(values[j])][..0] == [];
    }
    if pre != [] {
      assert pre[..0] == [];
    }
    if post != [] {
      assert post[..0] == [];
    }
  }

  lemma ItemsDecodeStep(values: seq<Triple>, k: nat, done: seq<Triple>)
    requires 0 < k <= |values|
    requires DecodeTriples(Items(values, k - 1)) == done
    ensures DecodeTriples(Items(values, k)) == done + [values[k - 1]]
  {
    ItemDecodes(values, k - 1);
    DecodeSnoc(Items(values, k - 1), Item(values, k - 1), Items(values, k), done, values[k - 1]);
  }

  lemma DecodeSnoc(a: Text, b: Text, t: Text, done: seq<Triple>, v: Triple)
    requires t == a + b && DecodeTriples(a) == done && DecodeTriples(b) == [v]
    ensures DecodeTriples(t) == done + [v]
  {
    DecodeTriplesAppend(a, b);
  }

  lemma {:induction false} ItemsDecode(values: seq<Triple>, k: nat)
    requires k <= |values|
    ensures DecodeTriples(Items(values, k)) == values[..k]
  {
    if k > 0 {
      ItemsDecode(values, k - 1);
      ItemsDecodeStep(values, k, values[..k - 1]);
      TakeSnoc(values, k);
    }
  }

  lemma TakeSnoc<T>(s: seq<T>, k: nat)
    requires 0 < k <= |s|
    ensures s[..k] == s[..k - 1] + [s[k - 1]]
  {
  }

  /** A text without vectors reads back as no triples. */
  lemma {:induction false} DecodeNoVectors(t: Text)
    requires forall i :: 0 <= i < |t| ==> !t[i].Vec?
    ensures DecodeTriples(t) == []
    decreases |t|
  {
    if t != [] {
      DecodeNoVectors(t[..|t| - 1]);
    }
  }

  lemma FrameDecodes(parameter: string, count: nat)
    ensures DecodeTriples(Mesh2Header(parameter, count)) == []
    ensures DecodeTriples([Lit("\n\t\t}")]) == []
  {
    DecodeNoVectors(Mesh2Header(parameter, count));
    DecodeNoVectors([Lit("\n\t\t}")]);
  }

  /** Round trip: the vectors printed by write_mesh2_params, read back, are
      exactly the input triples in input order. */
  lemma Mesh2ParamsRoundTrip(parameter: string, values: seq<Triple>)
    ensures DecodeTriples(Mesh2Params(parameter, values)) == values
  {
    var h := Mesh2Header(parameter, |values|);
    var items := Items(values, |values|);
    var close: Text := [Lit("\n\t\t}")];
    FrameDecodes(parameter, |values|);
    ItemsDecode(values, |values|);
    DecodeTriplesAppend(h + items, close);
    DecodeTriplesAppend(h, items);
    calc {
      DecodeTriples(Mesh2Params(parameter, values));
      DecodeTriples((h + items) + close);
      DecodeTriples(h) + DecodeTriples(items) + DecodeTriples(close);
      values[..|values|];
      { assert values[..|values|] == values; }
      values;
    }
  }

  lemma HalfStep(k: nat)
    requires k > 0
    ensures k / 2 + (if (k - 1) % 2 == 0 then 1 else 0) == (k + 1) / 2
  {
    var q := (k - 1) / 2;
    var r := (k - 1) % 2;
    assert k - 1 == 2 * q + r;
    if r == 0 {
      assert k == 2 * q + 1;
      assert k / 2 == q;
      assert (k + 1) / 2 == q + 1;
    } else {
      assert k == 2 * q + 2;
      assert k / 2 == q + 1;
      assert (k + 1) / 2 == q + 1;
    }
  }

  lemma ItemCounts(values: seq<Triple>, j: nat)
    requires j < |values|
    ensures Count(Item(values, j), Lit("\n\t\t")) == (if j % 2 == 0 then 1 else 0)
    ensures Count(Item(values, j), Lit(", ")) == (if j != |values| - 1 then 1 else 0)
  {
    EvenIsMod(j);
    var pre: Text := if Even(j) then [Lit("\n\t\t")] else [];
    var post: Text := if j != |values| - 1 then [Lit(", ")] else [];
    var mid := [TripleTok(values[j])];
    assert Item(values, j) == (pre + mid) + post;
    CountSplit(pre + mid, post, Lit("\n\t\t"));
    CountSplit(pre, mid, Lit("\n\t\t"));
    CountSplit(pre + mid, post, Lit(", "));
    CountSplit(pre, mid, Lit(", "));
    CountSingle(TripleTok(values[j]), Lit("\n\t\t"));
    CountSingle(TripleTok(values[j]), Lit(", "));
    CountSingle(Lit("\n\t\t"), Lit(", "));
    CountSingle(Lit(", "), Lit("\n\t\t"));
    CountSingle(Lit(", "), Lit(", "));
    CountSingle(Lit("\n\t\t"), Lit("\n\t\t"));
  }

  /** Line breaks: one before every even-indexed triple, independently of
      values_per_line. */
  lemma {:induction false} ItemsLineBreaks(values: seq<Triple>, k: nat)
    requires k <= |values|
    ensures Count(Items(values, k), Lit("\n\t\t")) == (k + 1) / 2
  {
    if k > 0 {
      ItemsLineBreaks(values, k - 1);
      ItemCounts(values, k - 1);
      CountSplit(Items(values, k - 1), Item(values, k - 1), Lit("\n\t\t"));
      HalfStep(k);
    }
  }

  /** Separators: one ", " after every triple but the last. */
  lemma {:induction false} ItemsSeparators(values: seq<Triple>, k: nat)
    requires k <= |values|
    ensures Count(Items(values, k), Lit(", ")) == k - (if k == |values| && k > 0 then 1 else 0)
  {
    if k > 0 {
      ItemsSeparators(values, k - 1);
      ItemCounts(values, k - 1);
      CountSplit(Items(values, k - 1), Item(values, k - 1), Lit(", "));
    }
  }

  lemma HeaderCounts(parameter: string, count: nat)
    ensures Count(Mesh2Header(parameter, count), Lit("\n\t\t")) == 1
    ensures Count(Mesh2Header(parameter, count), Lit(", ")) == 0
  {
    var h := Mesh2Header(parameter, count);
    assert multiset(h) == multiset{Lit("\n\t"), Txt(parameter), Lit(" {"), Lit("\n\t\t"), Int(count)};
  }

  /** write_mesh2_params: a line break before the count and before every
      even-indexed triple. */
  lemma Mesh2ParamsLineBreaks(parameter: string, values: seq<Triple>)
    ensures Count(Mesh2Params(parameter, values), Lit("\n\t\t")) == 1 + (|values| + 1) / 2
  {
    var h := Mesh2Header(parameter, |values|);
    var items := Items(values, |values|);
    var close := [Lit("\n\t\t}")];
    ItemsLineBreaks(values, |values|);
    HeaderCounts(parameter, |values|);
    CountSingle(Lit("\n\t\t}"), Lit("\n\t\t"));
    CountSplit(h + items, close, Lit("\n\t\t"));
    CountSplit(h, items, Lit("\n\t\t"));
  }

  /** write_mesh2_params: a separator after every triple but the last. */
  lemma Mesh2ParamsSeparators(parameter: string, values: seq<Triple>)
    ensures Count(Mesh2Params(parameter, values), Lit(", ")) == (if values == [] then 0 else |values| - 1)
  {
    var h := Mesh2Header(parameter, |values|);
    var items := Items(values, |values|);
    var close := [Lit("\n\t\t}")];
    ItemsSeparators(values, |values|);
    HeaderCounts(parameter, |values|);
    CountSingle(Lit("\n\t\t}"), Lit(", "));
    CountSplit(h + items, close, Lit(", "));
    CountSplit(h, items, Lit(", "));
  }

  // ---------------------------------------------------------------------
  // create_mesh2 (util_iso.py:17-148; povray_iso.py:27-156)
  // ---------------------------------------------------------------------

  /** The colormap argument for the i-th of n isosurfaces. */
  function ColorArg(i: nat, n: nat): real
    requires n > 0
  {
    (i as real) / (n as real)
  }

  /** The colormap arguments lie in [0, 1) and increase strictly with i. */
  lemma ColorArgRange(i: nat, j: nat, n: nat)
    requires i < j < n
    ensures 0.0 <= ColorArg(i, n) < ColorArg(j, n) < 1.0
  {
    var nr := n as real;
    assert ColorArg(i, n) * nr == i as real;
    assert ColorArg(j, n) * nr == j as real;
  }

  /** `pigment { rgbt <r, g, b, transmit> }`, colour to four decimals. */
  function PigmentRgbt(col: Rgba, transmit: real): Text
  {
    [Lit("\n\tpigment { rgbt <"), Num(col.r, Fixed(4)), Lit(", "), Num(col.g, Fixed(4)), Lit(", "),
     Num(col.b, Fixed(4)), Lit(", "), Num(transmit, Plain), Lit("> }")]
  }

  /** A comment line followed by one write_mesh2_params text. */
  function Section(comment: string, parameter: string, values: seq<Triple>): Text
  {
    [Lit(comment)] + Mesh2Params(parameter, values)
  }

  /** Everything of a mesh2 block after its opening line. */
  function Mesh2Body(m: MeshData, col: Rgba, transmit: real): Text
  {
    Section("\n\t// Vertex vectors", "vertex_vectors", m.corners)
    + Section("\n\t// Normal vectors", "normal_vectors", m.normals)
    + Section("\n\t// Face indices", "face_indices", m.faces)
    + PigmentRgbt(col, transmit) + [Lit("\n\t}")]
  }

  /** The mesh2 block for the i-th of n cutoffs. */
  function Mesh2Block(i: nat, n: nat, cutoff: real, transmit: real, mc: real -> MeshData,
                      cm: real -> Rgba): Text
    requires n > 0
  {
    [Lit("\n\nmesh2 {")] + Mesh2Body(mc(cutoff), cm(ColorArg(i, n)), transmit)
  }

  /** The mesh2 blocks for the cutoffs `cs`, one per cutoff, in order. */
  function BlockList(cs: seq<real>, transmit: real, mc: real -> MeshData, cm: real -> Rgba): (bs: seq<Text>)
    ensures |bs| == |cs|
  {
    seq(|cs|, i requires 0 <= i < |cs| => Mesh2Block(i, |cs|, cs[i], transmit, mc, cm))
  }

  function UnionOpen(n: nat): Text
  {
    if n > 1 then [Lit("\nunion {")] else []
  }

  function UnionClose(n: nat, close: string): Text
  {
    if n > 1 then [Lit(close)] else []
  }

  /** `n` blocks, inside a union when there are several. */
  function Wrap(n: nat, blocks: Text, close: string): Text
  {
    UnionOpen(n) + blocks + UnionClose(n, close)
  }

  /** The mesh text for the sorted cutoffs. */
  function MeshText(cs: seq<real>, transmit: real, mc: real -> MeshData, cm: real -> Rgba,
                    close: string): Text
  {
    Wrap(|cs|, Join(BlockList(cs, transmit, mc, cm)), close)
  }

  /** marching_cubes_lewiner on a field whose values range over
      [fieldMin, fieldMax]: a ValueError for a level outside that range,
      otherwise the surface `mc` gives for the level. */
  function MarchingCubes(fieldMin: real, fieldMax: real, level: real, mc: real -> MeshData): (r: Result<MeshData>)
    ensures r.Err? <==> level < fieldMin || fieldMax < level
    ensures r.Ok? ==> r.value == mc(level)
  {
    if level < fieldMin || fieldMax < level then Err(ValueError) else Ok(mc(level))
  }

  /** Every cutoff lies within the field's range. */
  predicate InRange(cs: seq<real>, fieldMin: real, fieldMax: real)
  {
    forall i :: 0 <= i < |cs| ==> fieldMin <= cs[i] <= fieldMax
  }

  /** What create_mesh2's loop and union produce for the sorted cutoffs:
      the ValueError of the first cutoff marching cubes rejects, or the mesh
      text. */
  function MeshResult(cs: seq<real>, fieldMin: real, fieldMax: real, transmit: real,
                      mc: real -> MeshData, cm: real -> Rgba, close: string): Result<Text>
  {
    if InRange(cs, fieldMin, fieldMax) then Ok(MeshText(cs, transmit, mc, cm, close)) else Err(ValueError)
  }

  /** One pass of create_mesh2's loop: the mesh2 block for the i-th cutoff,
      or the ValueError marching cubes raises for it. */
  method WriteMesh2Block(cs: seq<real>, i: nat, fieldMin: real, fieldMax: real, transmit: real,
                         mc: real -> MeshData, cm: real -> Rgba) returns (r: Result<Text>)
    requires i < |cs|
    ensures r.Ok? <==> fieldMin <= cs[i] <= fieldMax
    ensures r.Ok? ==> r.value == BlockList(cs, transmit, mc, cm)[i]
    ensures r.Err? ==> r.error == ValueError
  {
    var color := cm(ColorArg(i, |cs|));
    var surface := MarchingCubes(fieldMin, fieldMax, cs[i], mc);
    if surface.Err? {
      return Err(surface.error);
    }
    var m := surface.value;
    var t := [Lit("\n\nmesh2 {")];
    t := t + [Lit("\n\t// Vertex vectors")];
    var vertexParams := WriteMesh2Params("vertex_vectors", m.corners, 2);
    t := t + vertexParams;
    t := t + [Lit("\n\t// Normal vectors")];
    var normalParams := WriteMesh2Params("normal_vectors", m.normals, 2);
    t := t + normalParams;
    t := t + [Lit("\n\t// Face indices")];
    var faceParams := WriteMesh2Params("face_indices", m.faces, 3);
    t := t + faceParams;
    t := t + PigmentRgbt(color, transmit);
    t := t + [Lit("\n\t}")];
    assert t == [Lit("\n\nmesh2 {")] + Mesh2Body(m, color, transmit);
    r := Ok(t);
  }

  /** One text more at the end of a joined list. */
  lemma JoinStep(ts: seq<Text>, i: nat, prefix: Text, mesh: Text, next: Text)
    requires i < |ts|
    requires mesh == prefix + Join(ts[..i])
    requires next == ts[i]
    ensures mesh + next == prefix + Join(ts[..i + 1])
  {
    assert ts[..i + 1][..i] == ts[..i];
  }

  /** The loop of create_mesh2: one mesh2 block per sorted cutoff, appended
      in order to the text written so far, until marching cubes rejects a
      cutoff. */
  method AppendBlocks(prefix: Text, cs: seq<real>, fieldMin: real, fieldMax: real, transmit: real,
                      mc: real -> MeshData, cm: real -> Rgba) returns (r: Result<Text>)
    ensures InRange(cs, fieldMin, fieldMax) ==> r == Ok(prefix + Join(BlockList(cs, transmit, mc, cm)))
    ensures !InRange(cs, fieldMin, fieldMax) ==> r == Err(ValueError)
  {
    var mesh := prefix;
    ghost var bs := BlockList(cs, transmit, mc, cm);
    for i := 0 to |cs|
      invariant mesh == prefix + Join(bs[..i])
      invariant InRange(cs[..i], fieldMin, fieldMax)
    {
      var block := WriteMesh2Block(cs, i, fieldMin, fieldMax, transmit, mc, cm);
      InRangeStep(cs, i, fieldMin, fieldMax);
      if block.Err? {
        return Err(block.error);
      }
      var t := block.value;
      JoinStep(bs, i, prefix, mesh, t);
      mesh := mesh + t;
    }
    assert cs[..|cs|] == cs;
    assert bs[..|cs|] == bs;
    r := Ok(mesh);
  }

  /** The cutoffs before i + 1 are in range exactly when those before i
      and the i-th are; an out-of-range i-th cutoff puts the list out of
      range. */
  lemma InRangeStep(cs: seq<real>, i: nat, fieldMin: real, fieldMax: real)
    requires i < |cs|
    ensures InRange(cs[..i + 1], fieldMin, fieldMax)
        <==> InRange(cs[..i], fieldMin, fieldMax) && fieldMin <= cs[i] <= fieldMax
    ensures !(fieldMin <= cs[i] <= fieldMax) ==> !InRange(cs, fieldMin, fieldMax)
  {
    assert cs[..i + 1][i] == cs[i];
  }

  /** The mesh text of create_mesh2 for the sorted cutoffs: the blocks,
      inside a union when there are several, or the ValueError of a cutoff
      outside the field's range. */
  method WriteMeshText(cs: seq<real>, fieldMin: real, fieldMax: real, transmit: real,
                       mc: real -> MeshData, cm: real -> Rgba, close: string) returns (r: Result<Text>)
    ensures r == MeshResult(cs, fieldMin, fieldMax, transmit, mc, cm, close)
  {
    var mesh := [];
    if |cs| > 1 {
      mesh := mesh + [Lit("\nunion {")];
    }
    ghost var head := mesh;
    var body := AppendBlocks(mesh, cs, fieldMin, fieldMax, transmit, mc, cm);
    if body.Err? {
      return Err(body.error);
    }
    mesh := body.value;
    ghost var blocks := Join(BlockList(cs, transmit, mc, cm));
    assert mesh == UnionOpen(|cs|) + blocks by { assert head == UnionOpen(|cs|); }
    if |cs| > 1 {
      mesh := mesh + [Lit(close)];
    }
    assert mesh == Wrap(|cs|, blocks, close);
    assert MeshText(cs, transmit, mc, cm, close) == Wrap(|cs|, blocks, close);
    r := Ok(mesh);
  }

  /** A positive field whose range is wide enough meets every clamped
      cutoff with a mesh: none is rejected by marching cubes. */
  lemma ClampedCutoffsMesh(field: seq<real>, cutoffs: seq<real>, transmit: real,
                           mc: real -> MeshData, cm: real -> Rgba, close: string)
    requires field != []
    requires 0.0 < SeqMin(field)
    requires 1.0001 * SeqMin(field) < SeqMax(field) && SeqMin(field) < 0.9999 * SeqMax(field)
    ensures var clamped := seq(|cutoffs|, i requires 0 <= i < |cutoffs| =>
                               Clamp(cutoffs[i], SeqMin(field), SeqMax(field)));
      MeshResult(SortedSet(clamped), SeqMin(field), SeqMax(field), transmit, mc, cm, close)
      == Ok(MeshText(SortedSet(clamped), transmit, mc, cm, close))
  {
    var lo, hi := SeqMin(field), SeqMax(field);
    ClampedInRange(cutoffs, lo, hi);
  }

  lemma ClampedInRange(cutoffs: seq<real>, lo: real, hi: real)
    requires 0.0 < lo && 1.0001 * lo < hi && lo < 0.9999 * hi
    ensures InRange(SortedSet(seq(|cutoffs|, i requires 0 <= i < |cutoffs| => Clamp(cutoffs[i], lo, hi))), lo, hi)
  {
    var clamped := seq(|cutoffs|, i requires 0 <= i < |cutoffs| => Clamp(cutoffs[i], lo, hi));
    var cs := SortedSet(clamped);
    forall i | 0 <= i < |cs|
      ensures lo <= cs[i] <= hi
    {
      assert cs[i] in clamped;
      var k :| 0 <= k < |clamped| && clamped[k] == cs[i];
      ClampStrictlyInside(cutoffs[k], lo, hi);
    }
  }

  /** A field ranging over [-1, 1] with the single cutoff -2: the clamp
      gives -1.0001, below the minimum, and marching cubes raises. */
  lemma NegativeMinimumRaises(transmit: real, mc: real -> MeshData, cm: real -> Rgba, close: string)
    ensures var field := [-1.0, 1.0];
      MeshResult(SortedSet([Clamp(-2.0, SeqMin(field), SeqMax(field))]), SeqMin(field), SeqMax(field),
                 transmit, mc, cm, close)
      == Err(ValueError)
  {
    var field := [-1.0, 1.0];
    assert SeqMin(field) == -1.0 && SeqMax(field) == 1.0;
    var cs := SortedSet([Clamp(-2.0, SeqMin(field), SeqMax(field))]);
    assert cs == [-1.0001];
    assert !(-1.0 <= cs[0]);
  }

  // Counting the blocks of the mesh text

  /** A literal that write_mesh2_params never writes. */
  predicate ParamsFree(x: Tok)
  {
    x.Lit? && x != Lit("\n\t") && x != Lit(" {") && x != Lit("\n\t\t") && x != Lit(", ")
    && x != Lit("\n\t\t}")
  }

  lemma ItemAvoids(values: seq<Triple>, j: nat, x: Tok)
    requires j < |values| && x.Lit? && x != Lit("\n\t\t") && x != Lit(", ")
    ensures x !in Item(values, j)
  {
  }

  lemma {:induction false} ItemsAvoid(values: seq<Triple>, k: nat, x: Tok)
    requires k <= |values| && x.Lit? && x != Lit("\n\t\t") && x != Lit(", ")
    ensures x !in Items(values, k)
  {
    if k > 0 {
      ItemsAvoid(values, k - 1, x);
      ItemAvoids(values, k - 1, x);
    }
  }

  /** write_mesh2_params writes none of the literals that open a mesh2
      block or a union. */
  lemma Mesh2ParamsAvoid(parameter: string, values: seq<Triple>, x: Tok)
    requires ParamsFree(x)
    ensures x !in Mesh2Params(parameter, values)
  {
    ItemsAvoid(values, |values|, x);
  }

  /** A literal that no mesh2 block writes after its opening line. */
  predicate BodyFree(x: Tok)
  {
    ParamsFree(x) && x != Lit("\n\t// Vertex vectors") && x != Lit("\n\t// Normal vectors")
    && x != Lit("\n\t// Face indices") && x != Lit("\n\tpigment { rgbt <") && x != Lit("> }")
    && x != Lit("\n\t}")
  }

  lemma BodyAvoids(m: MeshData, col: Rgba, transmit: real, x: Tok)
    requires BodyFree(x)
    ensures Count(Mesh2Body(m, col, transmit), x) == 0
  {
    Mesh2ParamsAvoid("vertex_vectors", m.corners, x);
    Mesh2ParamsAvoid("normal_vectors", m.normals, x);
    Mesh2ParamsAvoid("face_indices", m.faces, x);
    assert x !in Mesh2Body(m, col, transmit);
    assert x !in multiset(Mesh2Body(m, col, transmit));
  }

  /** Neither the mesh2 opening nor the union opening occurs inside a block. */
  lemma OpenersBodyFree()
    ensures BodyFree(Lit("\n\nmesh2 {")) && BodyFree(Lit("\nunion {"))
  {
  }

  /** Every mesh2 block opens exactly one `mesh2 {` and no union. */
  lemma Mesh2BlockCounts(i: nat, n: nat, cutoff: real, transmit: real, mc: real -> MeshData,
                         cm: real -> Rgba)
    requires n > 0
    ensures Count(Mesh2Block(i, n, cutoff, transmit, mc, cm), Lit("\n\nmesh2 {")) == 1
    ensures Count(Mesh2Block(i, n, cutoff, transmit, mc, cm), Lit("\nunion {")) == 0
  {
    var body := Mesh2Body(mc(cutoff), cm(ColorArg(i, n)), transmit);
    OpenersBodyFree();
    BodyAvoids(mc(cutoff), cm(ColorArg(i, n)), transmit, Lit("\n\nmesh2 {"));
    BodyAvoids(mc(cutoff), cm(ColorArg(i, n)), transmit, Lit("\nunion {"));
    CountSplit([Lit("\n\nmesh2 {")], body, Lit("\n\nmesh2 {"));
    CountSplit([Lit("\n\nmesh2 {")], body, Lit("\nunion {"));
    CountSingle(Lit("\n\nmesh2 {"), Lit("\n\nmesh2 {"));
    CountSingle(Lit("\n\nmesh2 {"), Lit("\nunion {"));
  }

  /** The blocks of the mesh text each hold one `mesh2 {` and no union. */
  lemma BlockListCounts(cs: seq<real>, transmit: real, mc: real -> MeshData, cm: real -> Rgba)
    ensures Count(Join(BlockList(cs, transmit, mc, cm)), Lit("\n\nmesh2 {")) == |cs|
    ensures Count(Join(BlockList(cs, transmit, mc, cm)), Lit("\nunion {")) == 0
  {
    var bs := BlockList(cs, transmit, mc, cm);
    forall i | 0 <= i < |bs|
      ensures Count(bs[i], Lit("\n\nmesh2 {")) == 1 && Count(bs[i], Lit("\nunion {")) == 0
    {
      Mesh2BlockCounts(i, |cs|, cs[i], transmit, mc, cm);
    }
    JoinCount(bs, Lit("\n\nmesh2 {"), 1);
    JoinCount(bs, Lit("\nunion {"), 0);
  }

  /** Counting through the union around the blocks. */
  lemma WrapCount(n: nat, blocks: Text, close: string, x: Tok)
    ensures Count(Wrap(n, blocks, close), x)
      == (if n > 1 && x == Lit("\nunion {") then 1 else 0) + Count(blocks, x)
         + (if n > 1 && x == Lit(close) then 1 else 0)
  {
    CountSplit(UnionOpen(n) + blocks, UnionClose(n, close), x);
    CountSplit(UnionOpen(n), blocks, x);
    if n > 1 {
      CountSingle(Lit("\nunion {"), x);
      CountSingle(Lit(close), x);
    }
  }

  lemma WrapBlocks(n: nat, blocks: Text, close: string)
    requires close != "\n\nmesh2 {"
    ensures Count(Wrap(n, blocks, close), Lit("\n\nmesh2 {")) == Count(blocks, Lit("\n\nmesh2 {"))
  {
    WrapCount(n, blocks, close, Lit("\n\nmesh2 {"));
  }

  lemma WrapUnion(n: nat, blocks: Text, close: string)
    requires close != "\nunion {" && Count(blocks, Lit("\nunion {")) == 0
    ensures Count(Wrap(n, blocks, close), Lit("\nunion {")) == (if n > 1 then 1 else 0)
  {
    WrapCount(n, blocks, close, Lit("\nunion {"));
  }

  /** create_mesh2 writes one mesh2 block per distinct cutoff. */
  lemma MeshTextBlocks(cs: seq<real>, transmit: real, mc: real -> MeshData, cm: real -> Rgba,
                       close: string)
    requires close != "\n\nmesh2 {"
    ensures Count(MeshText(cs, transmit, mc, cm, close), Lit("\n\nmesh2 {")) == |cs|
  {
    BlockListCounts(cs, transmit, mc, cm);
    WrapBlocks(|cs|, Join(BlockList(cs, transmit, mc, cm)), close);
  }

  /** The blocks are wrapped in one union exactly when there is more than
      one of them. */
  lemma MeshTextUnion(cs: seq<real>, transmit: real, mc: real -> MeshData, cm: real -> Rgba,
                      close: string)
    requires close != "\nunion {"
    ensures Count(MeshText(cs, transmit, mc, cm, close), Lit("\nunion {")) == (if |cs| > 1 then 1 else 0)
  {
    BlockListCounts(cs, transmit, mc, cm);
    WrapUnion(|cs|, Join(BlockList(cs, transmit, mc, cm)), close);
  }

  /** The union's closing text ends the mesh text when there are several
      blocks; a single block stands alone; no cutoffs give no text. */
  lemma MeshTextEnds(cs: seq<real>, transmit: real, mc: real -> MeshData, cm: real -> Rgba,
                     close: string)
    ensures var t := MeshText(cs, transmit, mc, cm, close);
      && (cs == [] ==> t == [])
      && (|cs| > 1 ==> |t| > 0 && t[|t| - 1] == Lit(close))
      && (|cs| == 1 ==> t == Mesh2Block(0, 1, cs[0], transmit, mc, cm))
  {
    var bs := BlockList(cs, transmit, mc, cm);
    if |cs| == 1 {
      assert bs[..0] == [];
      assert Join(bs) == bs[0];
    }
  }

  /** create_mesh2 with the text that closes the union as a parameter:
      util_iso.py writes `\n}`, povray_iso.py `\n}\n\n`. `field` holds the
      field's values; `mc` is marching cubes on that field and `cm` the
      chosen colormap. The caller's cutoff list is clamped in place and the
      caller's cmap_limits defaulted in place; the text holds one mesh2
      block per distinct clamped cutoff, unless marching cubes rejects a
      clamped cutoff outside the field's range with a ValueError. */
  method CreateMesh2Closed(field: seq<real>, cutoffs: array<real>, transmit: real,
                           cmapLimits: array<Limit>, mc: real -> MeshData, cm: real -> Rgba,
                           close: string) returns (r: Result<Text>)
    modifies cutoffs, cmapLimits
    ensures field == [] ==> r == Err(ValueError) && unchanged(cutoffs) && unchanged(cmapLimits)
    ensures field != [] ==>
      forall i :: 0 <= i < cutoffs.Length ==>
        cutoffs[i] == Clamp(old(cutoffs[i]), SeqMin(field), SeqMax(field))
    ensures field != [] ==>
      cmapLimits[..] == CmapDefaults(old(cmapLimits[..]), SortedSet(cutoffs[..])).1
    ensures field != [] && CmapDefaults(old(cmapLimits[..]), SortedSet(cutoffs[..])).0.Err? ==>
      r == CmapDefaults(old(cmapLimits[..]), SortedSet(cutoffs[..])).0.PropagateFailure()
    ensures field != [] && CmapDefaults(old(cmapLimits[..]), SortedSet(cutoffs[..])).0.Ok? ==>
      r == MeshResult(SortedSet(cutoffs[..]), SeqMin(field), SeqMax(field), transmit, mc, cm, close)
  {
    if field == [] {
      return Err(ValueError);
    }
    var fieldMin := SeqMin(field);
    var fieldMax := SeqMax(field);
    ClampCutoffs(cutoffs, fieldMin, fieldMax);
    var cs := SortedSet(cutoffs[..]);
    var lim := SetCmapLimits(cmapLimits, cs);
    if lim.Err? {
      return Err(lim.error);
    }
    r := WriteMeshText(cs, fieldMin, fieldMax, transmit, mc, cm, close);
  }

  /** create_mesh2 of util_iso.py, whose union ends with `\n}`. */
  method CreateMesh2(field: seq<real>, cutoffs: array<real>, transmit: real, cmapLimits: array<Limit>,
                     mc: real -> MeshData, cm: real -> Rgba) returns (r: Result<Text>)
    modifies cutoffs, cmapLimits
    ensures field == [] ==> r == Err(ValueError) && unchanged(cutoffs) && unchanged(cmapLimits)
    ensures field != [] ==>
      forall i :: 0 <= i < cutoffs.Length ==>
        cutoffs[i] == Clamp(old(cutoffs[i]), SeqMin(field), SeqMax(field))
    ensures field != [] ==>
      cmapLimits[..] == CmapDefaults(old(cmapLimits[..]), SortedSet(cutoffs[..])).1
    ensures field != [] && CmapDefaults(old(cmapLimits[..]), SortedSet(cutoffs[..])).0.Err? ==>
      r == CmapDefaults(old(cmapLimits[..]), SortedSet(cutoffs[..])).0.PropagateFailure()
    ensures field != [] && CmapDefaults(old(cmapLimits[..]), SortedSet(cutoffs[..])).0.Ok? ==>
      r == MeshResult(SortedSet(cutoffs[..]), SeqMin(field), SeqMax(field), transmit, mc, cm, "\n}")
  {
    r := CreateMesh2Closed(field, cutoffs, transmit, cmapLimits, mc, cm, "\n}");
  }

  // ---------------------------------------------------------------------
  // slice_isosurface with a box (util_iso.py:181-215)
  // ---------------------------------------------------------------------

  /** The box between two corners, `inverse` when it is subtracted. */
  function BoxText(corner1: seq<real>, corner2: seq<real>, subtractBox: bool): Text
    requires |corner1| >= 3 && |corner2| >= 3
  {
    [Lit("\nbox {\n\t"), Vec(corner1[..3], Plain), Vec(corner2[..3], Plain)]
    + (if subtractBox then [Lit(" inverse")] else []) + [Lit("\n\t}")]
  }

  /** slice_isosurface: intersects the mesh with the box. A corner with fewer
      than three coordinates raises IndexError. */
  function BoxSlice(mesh: Text, corner1: seq<real>, corner2: seq<real>, subtractBox: bool): (r: Result<Text>)
    ensures r.Err? <==> |corner1| < 3 || |corner2| < 3
    ensures r.Err? ==> r.error == IndexError
    ensures r.Ok? ==> |r.value| > |mesh| + 1 && r.value[..|mesh| + 1] == [Lit("intersection {")] + mesh
    ensures r.Ok? ==> r.value[|r.value| - 1] == Lit("\n}")
  {
    if |corner1| < 3 || |corner2| < 3 then Err(IndexError)
    else Ok([Lit("intersection {")] + mesh + BoxText(corner1, corner2, subtractBox) + [Lit("\n}")])
  }

  lemma BoxTextInverse(corner1: seq<real>, corner2: seq<real>, subtractBox: bool)
    requires |corner1| >= 3 && |corner2| >= 3
    ensures Count(BoxText(corner1, corner2, subtractBox), Lit(" inverse")) == (if subtractBox then 1 else 0)
  {
    var x := Lit(" inverse");
    var inv: Text := if subtractBox then [Lit(" inverse")] else [];
    var front := [Lit("\nbox {\n\t"), Vec(corner1[..3], Plain), Vec(corner2[..3], Plain)];
    assert multiset(front) == multiset{Lit("\nbox {\n\t"), Vec(corner1[..3], Plain), Vec(corner2[..3], Plain)};
    CountSplit(front + inv, [Lit("\n\t}")], x);
    CountSplit(front, inv, x);
    CountSingle(Lit("\n\t}"), x);
    CountSingle(Lit(" inverse"), x);
  }

  /** The box is inverted, keeping what lies outside it, exactly when it is
      subtracted. */
  lemma BoxSliceInverse(mesh: Text, corner1: seq<real>, corner2: seq<real>, subtractBox: bool)
    requires |corner1| >= 3 && |corner2| >= 3
    ensures Count(BoxSlice(mesh, corner1, corner2, subtractBox).value, Lit(" inverse"))
      == Count(mesh, Lit(" inverse")) + (if subtractBox then 1 else 0)
  {
    var x := Lit(" inverse");
    var box := BoxText(corner1, corner2, subtractBox);
    BoxTextInverse(corner1, corner2, subtractBox);
    CountSingle(Lit("\n}"), x);
    CountSingle(Lit("intersection {"), x);
    CountSplit([Lit("intersection {")] + mesh + box, [Lit("\n}")], x);
    CountSplit([Lit("intersection {")] + mesh, box, x);
    CountSplit([Lit("intersection {")], mesh, x);
  }

  /** The box's corners appear in the text, in order, after the mesh. */
  lemma BoxSliceCorners(mesh: Text, corner1: seq<real>, corner2: seq<real>, subtractBox: bool)
    requires |corner1| >= 3 && |corner2| >= 3
    ensures var t := BoxSlice(mesh, corner1, corner2, subtractBox).value;
      t[|mesh| + 1..|mesh| + 4] == [Lit("\nbox {\n\t"), Vec(corner1[..3], Plain), Vec(corner2[..3], Plain)]
  {
    var t := BoxSlice(mesh, corner1, corner2, subtractBox).value;
    var box := BoxText(corner1, corner2, subtractBox);
    assert t == ([Lit("intersection {")] + mesh) + (box + [Lit("\n}")]);
    assert t[|mesh| + 1..] == box + [Lit("\n}")];
  }
}
