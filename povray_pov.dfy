/** povray_pov.py: the header with optional include files, and render_pov,
    which picks POV-Ray's output format from the image name, writes the
    render settings to an INI file and builds the command that renders it. */
module PovrayPov {
  import opened Wrappers
  import opened Text
  import opened UtilPov

  // ---------------------------------------------------------------------
  // Output format detection (povray_pov.py:373-397)
  // ---------------------------------------------------------------------

  /** One element of the regular expressions render_pov uses: `.` (any
      character but a newline), a literal character, or a bracketed class
      under `*`. */
  datatype Atom = AnyChar | Ch(c: char) | StarOf(cs: set<char>)

  /** `p` matches all of `w`. */
  predicate Matches(p: seq<Atom>, w: string)
    decreases |w|, |p|
  {
    if p == [] then w == []
    else match p[0]
      case AnyChar => |w| > 0 && w[0] != '\n' && Matches(p[1..], w[1..])
      case Ch(c) => |w| > 0 && w[0] == c && Matches(p[1..], w[1..])
      case StarOf(cs) => Matches(p[1..], w) || (|w| > 0 && w[0] in cs && Matches(p, w[1..]))
  }

  /** `p$` matches all of `w`: `$` matches at the end of the string or just
      before a newline that ends it. */
  predicate MatchesAtEnd(p: seq<Atom>, w: string)
  {
    Matches(p, w) || (|w| > 0 && w[|w| - 1] == '\n' && Matches(p, w[..|w| - 1]))
  }

  predicate SearchFrom(p: seq<Atom>, s: string, i: nat)
    requires i <= |s|
    decreases |s| - i
  {
    MatchesAtEnd(p, s[i..]) || (i < |s| && SearchFrom(p, s, i + 1))
  }

  /** `re.compile(p + "$").search(s)` finds a match. */
  predicate Search(p: seq<Atom>, s: string)
  {
    SearchFrom(p, s, 0)
  }

  datatype Format = Format(pattern: seq<Atom>, code: char)

  /** file_type_dict in its insertion order. The dots are not escaped, so
      each stands for any character. */
  const Formats: seq<Format> := [
    Format([AnyChar, Ch('p'), Ch('n'), Ch('g')], 'N'),
    Format([AnyChar, Ch('b'), Ch('m'), Ch('p')], 'B'),
    Format([AnyChar, Ch('r'), Ch('l'), Ch('e')], 'C'),
    Format([AnyChar, Ch('e'), Ch('x'), Ch('r')], 'E'),
    Format([AnyChar, Ch('h'), Ch('d'), Ch('r')], 'H'),
    Format([AnyChar, Ch('j'), Ch('p'), StarOf({'e'}), Ch('g')], 'J'),
    Format([AnyChar, Ch('p'), Ch('p'), Ch('m')], 'P'),
    Format([AnyChar, Ch('t'), StarOf({'a', 'r'}), Ch('g'), Ch('a')], 'T')
  ]

  /** The first format at or after `from` whose pattern finds a match. */
  function FirstMatch(s: string, from: nat): (r: Option<nat>)
    requires from <= |Formats|
    decreases |Formats| - from
    ensures r.Some? ==>
      && from <= r.value < |Formats|
      && Search(Formats[r.value].pattern, s)
      && forall j :: from <= j < r.value ==> !Search(Formats[j].pattern, s)
    ensures r.None? ==> forall j :: from <= j < |Formats| ==> !Search(Formats[j].pattern, s)
  {
    if from == |Formats| then None
    else if Search(Formats[from].pattern, s) then Some(from)
    else FirstMatch(s, from + 1)
  }

  /** The image name and format code render_pov settles on: an unsupported
      or missing extension gets ".png" appended and format N. */
  function Detected(imageName: string): (string, char)
  {
    match FirstMatch(imageName, 0)
    case Some(k) => (imageName, Formats[k].code)
    case None => (imageName + ".png", 'N')
  }

  /** The while loop of render_pov that tries the patterns in order. */
  method DetectFormat(imageName: string) returns (name: string, useType: char)
    ensures (name, useType) == Detected(imageName)
    ensures FirstMatch(imageName, 0).Some? ==> name == imageName
  {
    name, useType := imageName, 'N';
    var found := false;
    var i := 0;
    while !found
      invariant !found ==> 0 <= i < |Formats| && FirstMatch(imageName, i) == FirstMatch(imageName, 0)
      invariant !found ==> name == imageName
      invariant found ==> (name, useType) == Detected(imageName)
      decreases if found then 0 else 1, |Formats| - i
    {
      if Search(Formats[i].pattern, imageName) {
        assert FirstMatch(imageName, i) == Some(i);
        useType := Formats[i].code;
        found := true;
      } else {
        assert FirstMatch(imageName, i) == FirstMatch(imageName, i + 1);
        i := i + 1;
        if i == |Formats| {
          assert FirstMatch(imageName, i) == None;
          name := imageName + ".png";
          useType := 'N';
          found := true;
        }
      }
    }
  }

  lemma {:induction false} SearchReaches(p: seq<Atom>, s: string, i: nat, j: nat)
    requires i <= j <= |s| && MatchesAtEnd(p, s[j..])
    ensures SearchFrom(p, s, i)
    decreases j - i
  {
    if i < j {
      SearchReaches(p, s, i + 1, j);
    }
  }

  lemma {:induction false} SearchWitness(p: seq<Atom>, s: string, i: nat) returns (j: nat)
    requires i <= |s| && SearchFrom(p, s, i)
    ensures i <= j <= |s| && MatchesAtEnd(p, s[j..])
    decreases |s| - i
  {
    if MatchesAtEnd(p, s[i..]) {
      j := i;
    } else {
      j := SearchWitness(p, s, i + 1);
    }
  }

  /** A pattern ending in a literal character matches a word only through
      its last character. */
  lemma {:induction false} MatchesSnoc(p: seq<Atom>, c: char, w: string)
    requires Matches(p + [Ch(c)], w)
    ensures |w| > 0 && w[|w| - 1] == c && Matches(p, w[..|w| - 1])
    decreases |w|, |p|
  {
    var q := p + [Ch(c)];
    if p == [] {
      assert q[1..] == [];
      assert w == [c];
    } else {
      assert q[0] == p[0];
      assert q[1..] == p[1..] + [Ch(c)];
      match p[0]
      case AnyChar =>
        MatchesSnoc(p[1..], c, w[1..]);
        assert w[..|w| - 1][1..] == w[1..][..|w[1..]| - 1];
      case Ch(d) =>
        MatchesSnoc(p[1..], c, w[1..]);
        assert w[..|w| - 1][1..] == w[1..][..|w[1..]| - 1];
      case StarOf(cs) =>
        if Matches(p[1..] + [Ch(c)], w) {
          MatchesSnoc(p[1..], c, w);
        } else {
          MatchesSnoc(p, c, w[1..]);
          assert w[..|w| - 1][1..] == w[1..][..|w[1..]| - 1];
        }
    }
  }

  /** On a string that does not end in a newline, a pattern ending in a
      literal character is found only if the string ends in that character
      and the rest of the pattern is found at the end of what precedes it. */
  lemma SearchSnoc(p: seq<Atom>, c: char, s: string)
    requires Search(p + [Ch(c)], s) && |s| > 0 && s[|s| - 1] != '\n'
    ensures s[|s| - 1] == c && Search(p, s[..|s| - 1])
  {
    var j := SearchWitness(p + [Ch(c)], s, 0);
    var w := s[j..];
    assert |w| > 0 ==> w[|w| - 1] == s[|s| - 1];
    MatchesSnoc(p, c, w);
    assert w[..|w| - 1] == s[..|s| - 1][j..];
    SearchReaches(p, s[..|s| - 1], 0, j);
  }

  /** The image-name extension render_pov recognises for each format. */
  const Extensions: seq<string> := [".png", ".bmp", ".rle", ".exr", ".hdr", ".jpg", ".ppm", ".tga"]

  /** A dot and three letters match a plain three-letter pattern. */
  lemma PlainExtensionMatches(a: char, b: char, c: char)
    ensures Matches([AnyChar, Ch(a), Ch(b), Ch(c)], ['.', a, b, c])
  {
    var p := [AnyChar, Ch(a), Ch(b), Ch(c)];
    var w := ['.', a, b, c];
    assert p[1..][1..][1..][1..] == [] && w[1..][1..][1..][1..] == [];
    assert Matches(p[1..][1..][1..], w[1..][1..][1..]);
  }

  /** ".jpg" and ".tga" match their patterns, the starred class taken zero
      times in ".jpg" and once in ".tga". */
  lemma StarredExtensionsMatch()
    ensures Matches(Formats[5].pattern, ".jpg")
    ensures Matches(Formats[7].pattern, ".tga")
  {
    var pj := Formats[5].pattern;
    var wj := ".jpg";
    assert pj[1..][1..][1..][1..] == [Ch('g')];
    assert wj[1..][1..][1..] == "g" && "g"[1..] == [];
    assert Matches(pj[1..][1..][1..][1..], wj[1..][1..][1..]);
    var pt := Formats[7].pattern;
    var wt := ".tga";
    assert pt[1..][1..][1..] == [Ch('g'), Ch('a')];
    assert wt[1..][1..] == "ga" && "ga"[1..] == "a" && "a"[1..] == [];
    assert Matches(pt[1..][1..][1..], wt[1..][1..]);
  }

  /** Each pattern matches its own extension. */
  lemma ExtensionMatches(k: nat)
    requires k < |Formats|
    ensures Matches(Formats[k].pattern, Extensions[k])
  {
    if k == 5 || k == 7 {
      StarredExtensionsMatch();
    } else {
      var e := Extensions[k];
      assert e == ['.', e[1], e[2], e[3]];
      assert Formats[k].pattern == [AnyChar, Ch(e[1]), Ch(e[2]), Ch(e[3])];
      PlainExtensionMatches(e[1], e[2], e[3]);
    }
  }

  /** Whatever precedes it, an image name ending in one of the extensions
      is given that extension's format code, and keeps its name. */
  lemma {:induction false} ExtensionDetected(base: string, k: nat)
    requires k < |Formats|
    ensures FirstMatch(base + Extensions[k], 0) == Some(k)
    ensures Detected(base + Extensions[k]) == (base + Extensions[k], Formats[k].code)
  {
    var s := base + Extensions[k];
    ExtensionMatches(k);
    assert s[|base|..] == Extensions[k];
    SearchReaches(Formats[k].pattern, s, 0, |base|);
    forall j | 0 <= j < k
      ensures !Search(Formats[j].pattern, s)
    {
      EarlierFormatMisses(base, k, j);
    }
  }

  lemma EarlierFormatMisses(base: string, k: nat, j: nat)
    requires j < k < |Formats|
    ensures !Search(Formats[j].pattern, base + Extensions[k])
  {
    var s := base + Extensions[k];
    var p := Formats[j].pattern;
    var n := |p|;
    if Search(p, s) {
      SearchSnoc(p[..n - 1], p[n - 1].c, s) by { assert p == p[..n - 1] + [Ch(p[n - 1].c)]; }
      if s[|s| - 1] == p[n - 1].c {
        // the last characters agree: png against jpg, exr against hdr
        var s' := s[..|s| - 1];
        var p' := p[..n - 1];
        assert p' == p'[..n - 2] + [Ch(p'[n - 2].c)];
        SearchSnoc(p'[..n - 2], p'[n - 2].c, s');
      }
    }
  }

  lemma {:induction false} FirstMatchNone(s: string, from: nat)
    requires from <= |Formats|
    requires forall j :: from <= j < |Formats| ==> !Search(Formats[j].pattern, s)
    ensures FirstMatch(s, from) == None
    decreases |Formats| - from
  {
    if from < |Formats| {
      FirstMatchNone(s, from + 1);
    }
  }

  /** The same check is case-sensitive: an upper-case extension is not
      recognised, and ".png" is appended after it. */
  lemma UpperCaseNotRecognised(base: string)
    ensures Detected(base + ".PNG") == (base + ".PNG.png", 'N')
  {
    var s := base + ".PNG";
    forall j | 0 <= j < |Formats|
      ensures !Search(Formats[j].pattern, s)
    {
      var p := Formats[j].pattern;
      var n := |p|;
      if Search(p, s) {
        SearchSnoc(p[..n - 1], p[n - 1].c, s) by { assert p == p[..n - 1] + [Ch(p[n - 1].c)]; }
      }
    }
    FirstMatchNone(s, 0);
    assert s + ".png" == base + ".PNG.png";
  }

  /** The dot in each pattern is not escaped, so a name that ends in "png"
      without a dot is also accepted as a PNG file and keeps its name. */
  lemma UnescapedDot(base: string)
    ensures Detected(base + "_png") == (base + "_png", 'N')
  {
    var s := base + "_png";
    var p := Formats[0].pattern;
    assert Matches(p, s[|base|..]) by {
      assert s[|base|..] == "_png";
      assert "_png"[1..][1..][1..][1..] == [];
    }
    SearchReaches(p, s, 0, |base|);
  }

  /** When no pattern matches, the name with ".png" appended is one the
      check would accept as it is: detecting twice changes nothing more. */
  lemma FallbackIsStable(imageName: string)
    requires FirstMatch(imageName, 0).None?
    ensures Detected(imageName) == (imageName + ".png", 'N')
    ensures Detected(imageName + ".png") == (imageName + ".png", 'N')
  {
    ExtensionDetected(imageName, 0);
  }

  // ---------------------------------------------------------------------
  // INI settings and command (povray_pov.py:400-436)
  // ---------------------------------------------------------------------

  function IniHead(povName: string, imageName: string, height: int, width: int): (t: Text)
    ensures |t| == 14
  {
    [Lit("; POV-Ray version 3.7 INI file\n"), Lit("; MANTIS auto-generated INI for "), Txt(povName),
     Lit("\n\n"), Lit("+I"), Txt(povName), Lit("\n+O"), Txt(imageName), Lit("\n"),
     Lit("+H"), Int(height), Lit("\n+W"), Int(width), Lit("\n")]
  }

  /** The INI lines that depend on the render settings. */
  function IniSwitches(display: bool, transparent: bool, antialias: bool, numThreads: int,
                       useType: char, renderQuality: int): Text
  {
    [if display then Lit("+D\n") else Lit("-D\n")]
    + (if transparent then [Lit("+UA\n")] else [])
    + (if antialias then [Lit("+A\n")] else [])
    + (if numThreads != 0 then [Lit("+WT"), Int(numThreads), Lit("\n")] else [])
    + (if useType != 'N' then [Lit("+F"), Txt([useType]), Lit("\n")] else [])
    + (if renderQuality != 9 then [Lit("+Q"), Int(ClampQuality(renderQuality)), Lit("\n")] else [])
  }

  /** The INI file's contents. */
  function IniText(povName: string, imageName: string, height: int, width: int, display: bool,
                   transparent: bool, antialias: bool, numThreads: int, useType: char,
                   renderQuality: int): (t: Text)
    ensures |t| >= 15
    ensures t[..14] == IniHead(povName, imageName, height, width)
    ensures t[14..] == IniSwitches(display, transparent, antialias, numThreads, useType, renderQuality)
  {
    IniHead(povName, imageName, height, width)
    + IniSwitches(display, transparent, antialias, numThreads, useType, renderQuality)
  }

  /** IniSwitches as its six optional pieces. */
  lemma IniSwitchPieces(display: bool, transparent: bool, antialias: bool, numThreads: int,
                        useType: char, renderQuality: int, x: Tok)
    ensures x in IniSwitches(display, transparent, antialias, numThreads, useType, renderQuality)
      <==> || x == (if display then Lit("+D\n") else Lit("-D\n"))
           || (transparent && x == Lit("+UA\n"))
           || (antialias && x == Lit("+A\n"))
           || (numThreads != 0 && x in [Lit("+WT"), Int(numThreads), Lit("\n")])
           || (useType != 'N' && x in [Lit("+F"), Txt([useType]), Lit("\n")])
           || (renderQuality != 9 && x in [Lit("+Q"), Int(ClampQuality(renderQuality)), Lit("\n")])
  {
    var p0: Text := [if display then Lit("+D\n") else Lit("-D\n")];
    var p1: Text := if transparent then [Lit("+UA\n")] else [];
    var p2: Text := if antialias then [Lit("+A\n")] else [];
    var p3: Text := if numThreads != 0 then [Lit("+WT"), Int(numThreads), Lit("\n")] else [];
    var p4: Text := if useType != 'N' then [Lit("+F"), Txt([useType]), Lit("\n")] else [];
    var p5: Text := if renderQuality != 9 then [Lit("+Q"), Int(ClampQuality(renderQuality)), Lit("\n")] else [];
    assert IniSwitches(display, transparent, antialias, numThreads, useType, renderQuality)
        == p0 + p1 + p2 + p3 + p4 + p5;
  }

  /** The display switch comes first, on or off. */
  lemma IniDisplaySwitch(display: bool, transparent: bool, antialias: bool, numThreads: int,
                           useType: char, renderQuality: int)
    ensures IniSwitches(display, transparent, antialias, numThreads, useType, renderQuality)[0]
      == if display then Lit("+D\n") else Lit("-D\n")
  {
  }

  /** Alpha output is asked for exactly when transparent. */
  lemma IniAlphaSwitch(display: bool, transparent: bool, antialias: bool, numThreads: int,
                           useType: char, renderQuality: int)
    ensures Lit("+UA\n") in IniSwitches(display, transparent, antialias, numThreads, useType, renderQuality)
      <==> transparent
  {
    IniSwitchPieces(display, transparent, antialias, numThreads, useType, renderQuality, Lit("+UA\n"));
  }

  /** Antialiasing is asked for exactly when set. */
  lemma IniAntialiasSwitch(display: bool, transparent: bool, antialias: bool, numThreads: int,
                           useType: char, renderQuality: int)
    ensures Lit("+A\n") in IniSwitches(display, transparent, antialias, numThreads, useType, renderQuality)
      <==> antialias
  {
    IniSwitchPieces(display, transparent, antialias, numThreads, useType, renderQuality, Lit("+A\n"));
  }

  /** A thread count is given exactly when it is not zero. */
  lemma IniThreadsSwitch(display: bool, transparent: bool, antialias: bool, numThreads: int,
                           useType: char, renderQuality: int)
    ensures Lit("+WT") in IniSwitches(display, transparent, antialias, numThreads, useType, renderQuality)
      <==> numThreads != 0
  {
    IniSwitchPieces(display, transparent, antialias, numThreads, useType, renderQuality, Lit("+WT"));
  }

  /** The output format is given exactly when it is not PNG. */
  lemma IniFormatSwitch(display: bool, transparent: bool, antialias: bool, numThreads: int,
                           useType: char, renderQuality: int)
    ensures Lit("+F") in IniSwitches(display, transparent, antialias, numThreads, useType, renderQuality)
      <==> useType != 'N'
  {
    IniSwitchPieces(display, transparent, antialias, numThreads, useType, renderQuality, Lit("+F"));
  }

  /** The quality is given exactly when it is not POV-Ray's default. */
  lemma IniQualitySwitch(display: bool, transparent: bool, antialias: bool, numThreads: int,
                           useType: char, renderQuality: int)
    ensures Lit("+Q") in IniSwitches(display, transparent, antialias, numThreads, useType, renderQuality)
      <==> renderQuality != 9
  {
    IniSwitchPieces(display, transparent, antialias, numThreads, useType, renderQuality, Lit("+Q"));
  }

  /** The quality written is always one POV-Ray accepts, 0 to 11. */
  lemma IniQualityInRange(display: bool, transparent: bool, antialias: bool, numThreads: int,
                          useType: char, renderQuality: int)
    requires renderQuality != 9
    ensures var t := IniSwitches(display, transparent, antialias, numThreads, useType, renderQuality);
      && |t| >= 4
      && t[|t| - 3 .. |t| - 1] == [Lit("+Q"), Int(ClampQuality(renderQuality))]
      && 0 <= ClampQuality(renderQuality) <= 11
  {
  }

  /** ini_name: the .pov file name with ".pov" replaced by ".ini". For a
      name ending in ".pov" only that suffix changes. */
  lemma {:induction false} IniNameOfPovName(base: string)
    ensures Replace(base + ".pov", ".pov", ".ini") == Replace(base, ".pov", ".ini") + ".ini"
    decreases |base|
  {
    var s := base + ".pov";
    if |base| == 0 {
      assert s == ".pov";
      assert Replace(s[4..], ".pov", ".ini") == [];
    } else if |base| < 4 {
      assert s[..4] != ".pov" by {
        assert s[..4][|base|] == '.' && ".pov"[|base|] != '.';
      }
      assert s[1..] == base[1..] + ".pov";
      IniNameOfPovName(base[1..]);
      assert Replace(base[1..], ".pov", ".ini") == base[1..];
    } else if base[..4] == ".pov" {
      assert s[..4] == ".pov";
      assert s[4..] == base[4..] + ".pov";
      IniNameOfPovName(base[4..]);
    } else {
      assert s[..4] == base[..4];
      assert s[1..] == base[1..] + ".pov";
      IniNameOfPovName(base[1..]);
    }
  }

  /** ".pov" occurs in `s` at position `i`. */
  predicate PovAt(s: string, i: int)
  {
    0 <= i && i + 4 <= |s| && s[i..i + 4] == ".pov"
  }

  /** A name without ".pov" in it is kept, so the INI file then takes the
      name of the .pov file itself. */
  lemma {:induction false} IniNameWithoutPov(povName: string)
    requires forall i :: !PovAt(povName, i)
    ensures Replace(povName, ".pov", ".ini") == povName
    decreases |povName|
  {
    if |povName| >= 4 {
      assert !PovAt(povName, 0);
      assert povName[0..4] == povName[..4];
      var rest := povName[1..];
      forall i | 0 <= i
        ensures !PovAt(rest, i)
      {
        if i + 4 <= |rest| {
          assert rest[i..i + 4] == povName[i + 1..i + 5];
          assert !PovAt(povName, i + 1);
        }
      }
      IniNameWithoutPov(rest);
    }
  }

  /** `povray {ini_name}`, then ` && eog {image_name}` if the image is to be
      opened. */
  function PovrayCommand(iniName: string, imageName: string, openImage: bool): (cmd: Text)
    ensures |cmd| == if openImage then 4 else 2
    ensures cmd[..2] == [Lit("povray "), Txt(iniName)]
    ensures openImage ==> cmd[2..] == [Lit(" && eog "), Txt(imageName)]
  {
    [Lit("povray "), Txt(iniName)] + (if openImage then [Lit(" && eog "), Txt(imageName)] else [])
  }

  /** render_pov, povray_pov.py:313-447: returns the INI file name, its
      contents and the render command. Writing the file, running the
      command and printing are not modelled. */
  method RenderPov(povName: string, imageName: string, height: int, width: int, display: bool,
                   transparent: bool, antialias: bool, numThreads: int, openImage: bool,
                   renderQuality: int) returns (iniName: string, ini: Text, command: Text)
    ensures var (name, useType) := Detected(imageName);
      && iniName == Replace(povName, ".pov", ".ini")
      && ini == IniText(povName, name, height, width, display, transparent, antialias, numThreads,
                        useType, renderQuality)
      && command == PovrayCommand(iniName, name, openImage)
  {
    var name, useType := DetectFormat(imageName);
    ini := IniText(povName, name, height, width, display, transparent, antialias, numThreads,
                   useType, renderQuality);
    iniName := Replace(povName, ".pov", ".ini");
    command := PovrayCommand(iniName, name, openImage);
  }

  // ---------------------------------------------------------------------
  // Header and camera (povray_pov.py:107-255)
  // ---------------------------------------------------------------------

  const DefaultIncludes: seq<string> := ["colors.inc", "finish.inc", "glass.inc", "metals.inc"]

  /** One `#include "{f}"` line per include file, in order. */
  function IncludeLines(fs: seq<string>): (t: Text)
    ensures |t| == 3 * |fs|
    ensures forall i :: 0 <= i < |fs| ==>
      t[3 * i] == Lit("#include \"") && t[3 * i + 1] == Txt(fs[i]) && t[3 * i + 2] == Lit("\"\n")
  {
    if fs == [] then []
    else IncludeLines(fs[..|fs| - 1]) + [Lit("#include \""), Txt(fs[|fs| - 1]), Lit("\"\n")]
  }

  /** Include lines are written when asked for, and also whenever the list
      differs from the default one. */
  function IncludeBlock(useIncludeFiles: bool, includeFiles: seq<string>): Text
  {
    if useIncludeFiles || includeFiles != DefaultIncludes then IncludeLines(includeFiles) + [Lit("\n")]
    else []
  }

  /** The camera options: the orthographic camera always has an angle (60
      when none is given); any other camera has one only when it is nonzero. */
  function ViewingOptions(style: string, viewingAngle: int): (t: Text)
    ensures t != [] <==> style == "orthographic" || viewingAngle != 0
    ensures t != [] ==> |t| == 3 && t[0] == Lit("angle ") && t[1].Int? && t[1].i != 0
    ensures t != [] && viewingAngle != 0 ==> t[1] == Int(viewingAngle)
  {
    if style == "orthographic" then [Lit("angle "), Int(if viewingAngle == 0 then 60 else viewingAngle), Lit("\n\t")]
    else if viewingAngle != 0 then [Lit("angle "), Int(viewingAngle), Lit("\n\t")]
    else []
  }

  /** The loop of write_header_and_camera that adds the include lines. */
  method WriteIncludes(useIncludeFiles: bool, includeFiles: seq<string>) returns (t: Text)
    ensures t == IncludeBlock(useIncludeFiles, includeFiles)
  {
    t := [];
    var useIncludes := useIncludeFiles || includeFiles != DefaultIncludes;
    if useIncludes {
      var i := 0;
      while i < |includeFiles|
        invariant 0 <= i <= |includeFiles|
        invariant t == IncludeLines(includeFiles[..i])
      {
        assert includeFiles[..i + 1][..i] == includeFiles[..i];
        t := t + [Lit("#include \""), Txt(includeFiles[i]), Lit("\"\n")];
        i := i + 1;
      }
      assert includeFiles[..i] == includeFiles;
      t := t + [Lit("\n")];
    }
  }

  /** The header text for an already resolved camera and style. */
  function PovHeaderText(useIncludeFiles: bool, includeFiles: seq<string>, bgColor: seq<real>,
                         style: string, viewingAngle: int, cam: Camera, upDir: seq<real>,
                         rightDir: seq<real>, sky: seq<real>, shadowless: bool): Text
    requires HeaderVectorsOk(cam, upDir, rightDir, sky, bgColor)
  {
    Preamble + IncludeBlock(useIncludeFiles, includeFiles) + Background(bgColor)
    + ([Lit("camera \n\t{\n\t"), Txt(style), Lit(" \n\t")] + ViewingOptions(style, viewingAngle))
    + CameraTail(cam, upDir, rightDir, sky) + LightBlock(cam.light, shadowless)
  }

  /** write_header_and_camera of povray_pov.py, with the loop over the
      include files. */
  method WriteHeaderAndCamera(deviceDims: seq<real>, coatingDims: seq<real>, cameraStyle: string,
                              cameraRotate: real, viewingAngle: int, cameraLoc: seq<real>,
                              lookAt: seq<real>, lightLoc: seq<real>, upDir: seq<real>,
                              rightDir: seq<real>, sky: seq<real>, bgColor: seq<real>,
                              shadowless: bool, isosurface: bool, useIncludeFiles: bool,
                              includeFiles: seq<string>, guess: CameraQuery -> Camera)
    returns (r: Result<Text>)
    ensures var cam := ResolveCamera(deviceDims, coatingDims, cameraStyle, cameraRotate, cameraLoc,
                                     lookAt, lightLoc, isosurface, guess);
      && (r.Ok? <==> cam.Ok? && HeaderVectorsOk(cam.value, upDir, rightDir, sky, bgColor))
      && (cam.Err? ==> r == Err(cam.error))
      && (cam.Ok? && !HeaderVectorsOk(cam.value, upDir, rightDir, sky, bgColor) ==> r == Err(IndexError))
      && (r.Ok? ==> r.value == PovHeaderText(useIncludeFiles, includeFiles, bgColor, DefaultStyle(cameraStyle),
                                             viewingAngle, cam.value, upDir, rightDir, sky, shadowless))
  {
    var res := ResolveCamera(deviceDims, coatingDims, cameraStyle, cameraRotate, cameraLoc,
                             lookAt, lightLoc, isosurface, guess);
    if res.Err? {
      return Err(res.error);
    }
    var cam := res.value;
    var style := cameraStyle;
    if style == "" {
      style := "perspective";
    }
    var options := ViewingOptions(style, viewingAngle);
    var includes := WriteIncludes(useIncludeFiles, includeFiles);
    var header := Preamble + includes;
    assert header == Preamble + IncludeBlock(useIncludeFiles, includeFiles);
    if !HeaderVectorsOk(cam, upDir, rightDir, sky, bgColor) {
      return Err(IndexError);
    }
    header := header + Background(bgColor);
    header := header + ([Lit("camera \n\t{\n\t"), Txt(style), Lit(" \n\t")] + options);
    header := header + CameraTail(cam, upDir, rightDir, sky);
    header := header + LightBlock(cam.light, shadowless);
    assert style == DefaultStyle(cameraStyle);
    r := Ok(header);
  }
}
