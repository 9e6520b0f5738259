/** Scene text as a sequence of tokens.

    The modelled code builds its output by concatenating literal template text
    with interpolated values. A token keeps that distinction: `Lit` is text
    written literally in the source, `Txt` is an interpolated string value,
    `Num` is a real number together with the format it is printed with
    (`{x}` or `{x:.5f}`), `Int` an interpolated integer, `Vec` a vector printed
    as `<x, y, z>` with each entry in the given format, and `Accent` stands for
    the accent-line text of a feature, whose geometry is not modelled.
    Concatenating the rendering of the tokens gives the source's string; how a
    number is rendered into digits is not modelled. */
module Text {

  /** How a number is interpolated: `{x}` or `{x:.nf}`. */
  datatype Fmt = Plain | Fixed(digits: nat)

  datatype Tok =
    | Lit(s: string)
    | Txt(s: string)
    | Num(r: real, fmt: Fmt)
    | Int(i: int)
    | Vec(xs: seq<real>, vfmt: Fmt)
    | Accent(kind: string, zTop: real, height: real)

  type Text = seq<Tok>

  /** Number of occurrences of token `x` in `t`. */
  function Count(t: Text, x: Tok): nat
  {
    multiset(t)[x]
  }

  /** The concatenation of a list of texts. */
  function Join(ts: seq<Text>): Text
  {
    if ts == [] then [] else Join(ts[..|ts| - 1]) + ts[|ts| - 1]
  }

  /** Counting distributes over concatenation. */
  lemma CountSplit(a: Text, b: Text, x: Tok)
    ensures Count(a + b, x) == Count(a, x) + Count(b, x)
  {
    assert multiset(a + b) == multiset(a) + multiset(b);
  }

  lemma CountSingle(t: Tok, x: Tok)
    ensures Count([t], x) == if t == x then 1 else 0
  {
    assert multiset([t]) == multiset{t};
  }

  /** Joining a non-empty list puts its first text in front. */
  lemma {:induction false} JoinCons(ts: seq<Text>)
    requires ts != []
    ensures Join(ts) == ts[0] + Join(ts[1..])
    decreases |ts|
  {
    if |ts| > 1 {
      var init := ts[..|ts| - 1];
      JoinCons(init);
      assert init[1..] == ts[1..][..|ts[1..]| - 1];
      assert ts[1..][|ts[1..]| - 1] == ts[|ts| - 1];
    } else {
      assert ts[1..] == [];
      assert ts[..0] == [];
    }
  }

  /** Texts of length n each join to n tokens per text. */
  lemma {:induction false} JoinLength(ts: seq<Text>, n: nat)
    requires forall i :: 0 <= i < |ts| ==> |ts[i]| == n
    ensures |Join(ts)| == n * |ts|
  {
    if ts != [] {
      var init := ts[..|ts| - 1];
      assert forall i :: 0 <= i < |init| ==> init[i] == ts[i];
      JoinLength(init, n);
      MulSucc(n, |init|);
    }
  }

  /** In a join of texts of length n, text i fills positions n * i to
      n * i + n. */
  lemma {:induction false} JoinAt(ts: seq<Text>, n: nat, i: nat)
    requires forall k :: 0 <= k < |ts| ==> |ts[k]| == n
    requires i < |ts|
    ensures n * i + n <= |Join(ts)|
    ensures Join(ts)[n * i .. n * i + n] == ts[i]
  {
    var init, last := ts[..|ts| - 1], ts[|ts| - 1];
    assert forall k :: 0 <= k < |init| ==> init[k] == ts[k];
    var prefix := Join(init);
    assert Join(ts) == prefix + last;
    JoinLength(init, n);
    var p, q := n * i, n * i + n;
    if i == |init| {
      assert p == |prefix|;
      SliceOfSuffix(prefix, last, p, q);
    } else {
      JoinAt(init, n, i);
      SliceOfPrefix(prefix, last, p, q);
    }
  }

  lemma SliceOfPrefix(a: Text, b: Text, p: nat, q: nat)
    requires p <= q <= |a|
    ensures (a + b)[p..q] == a[p..q]
  {
  }

  lemma SliceOfSuffix(a: Text, b: Text, p: nat, q: nat)
    requires p == |a| && q == |a| + |b|
    ensures (a + b)[p..q] == b
  {
  }

  /** Texts that each hold `c` copies of `x` join to `c` copies per text. */
  lemma {:induction false} JoinCount(ts: seq<Text>, x: Tok, c: nat)
    requires forall i :: 0 <= i < |ts| ==> Count(ts[i], x) == c
    ensures Count(Join(ts), x) == c * |ts|
  {
    if ts != [] {
      var init := ts[..|ts| - 1];
      assert forall i :: 0 <= i < |init| ==> init[i] == ts[i];
      calc {
        Count(Join(ts), x);
        Count(Join(init) + ts[|ts| - 1], x);
        { CountSplit(Join(init), ts[|ts| - 1], x); }
        Count(Join(init), x) + Count(ts[|ts| - 1], x);
        { JoinCount(init, x, c); }
        c * |init| + c;
        { MulSucc(c, |init|); }
        c * |ts|;
      }
    }
  }

  lemma MulSucc(c: nat, n: nat)
    ensures c * n + c == c * (n + 1)
  {
  }

  /** `s` with every non-overlapping occurrence of `pat` replaced by `rep`,
      scanning from the left, as Python's `str.replace` does. */
  function Replace(s: string, pat: string, rep: string): string
    requires pat != []
    decreases |s|
  {
    if |s| < |pat| then s
    else if s[..|pat|] == pat then rep + Replace(s[|pat|..], pat, rep)
    else [s[0]] + Replace(s[1..], pat, rep)
  }

  /** The vertex tokens of a text, in order. */
  function Vertices(t: Text): (v: Text)
    ensures |v| <= |t|
    ensures forall j :: 0 <= j < |v| ==> v[j].Vec?
  {
    if t == [] then [] else (if t[0].Vec? then [t[0]] else []) + Vertices(t[1..])
  }

  lemma {:induction false} VerticesSplit(a: Text, b: Text)
    ensures Vertices(a + b) == Vertices(a) + Vertices(b)
  {
    if a == [] {
      assert a + b == b;
    } else {
      assert (a + b)[1..] == a[1..] + b;
      VerticesSplit(a[1..], b);
    }
  }

  lemma VerticesCons(x: Tok, t: Text)
    ensures Vertices([x] + t) == (if x.Vec? then [x] else []) + Vertices(t)
  {
    assert ([x] + t)[1..] == t;
  }

  /** A vertex-free text, then `b`, then a text listing only `x`. */
  lemma VerticesAround(a: Text, b: Text, c: Text, x: Tok)
    requires Vertices(a) == [] && Vertices(c) == [x]
    ensures Vertices(a + b + c) == Vertices(b) + [x]
  {
    VerticesSplit(a + b, c);
    VerticesSplit(a, b);
    assert [] + Vertices(b) == Vertices(b);
  }

  /** A vertex x followed by three vertex-free texts lists only x. */
  lemma VerticesFirst(x: Tok, b: Text, c: Text, d: Text)
    requires x.Vec? && Vertices(b) == [] && Vertices(c) == [] && Vertices(d) == []
    ensures Vertices([x] + b + c + d) == [x]
  {
    VerticesSplit([x] + b + c, d);
    VerticesSplit([x] + b, c);
    VerticesCons(x, b);
  }

  /** A step that lists one vertex adds it at the end. */
  lemma VerticesSnoc(a: Text, step: Text, x: Tok)
    requires Vertices(step) == [x]
    ensures Vertices(a + step) == Vertices(a) + [x]
  {
    VerticesSplit(a, step);
  }

  /** A text without vector tokens lists no vertices. */
  lemma {:induction false} VerticesNone(t: Text)
    requires forall j :: 0 <= j < |t| ==> !t[j].Vec?
    ensures Vertices(t) == []
  {
    if t != [] {
      VerticesNone(t[1..]);
    }
  }

  /** A token occurs in a concatenation exactly when it occurs in a part. */
  lemma InSplit(a: Text, b: Text, x: Tok)
    ensures x in a + b <==> x in a || x in b
  {
    if x in a + b {
      var j :| 0 <= j < |a + b| && (a + b)[j] == x;
      if j >= |a| {
        assert b[j - |a|] == x;
      }
    }
    if x in a {
      var j :| 0 <= j < |a| && a[j] == x;
      assert (a + b)[j] == x;
    }
    if x in b {
      var j :| 0 <= j < |b| && b[j] == x;
      assert (a + b)[|a| + j] == x;
    }
  }
}
