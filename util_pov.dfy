/** util_pov.py: colour and finish resolution, the scene header with its
    camera and light, and the POV-Ray command line. */
module UtilPov {
  import opened Wrappers
  import opened Text

  // ---------------------------------------------------------------------
  // Colour and finish (util_pov.py:110-303; util_shapes.py:1663-1843 is an
  // identical copy, and the shape writers call that one)
  // ---------------------------------------------------------------------

  /** An RGBFT colour list. color_and_finish pads and overwrites it in place,
      so the caller's list (a dictionary entry or a custom colour) changes. */
  class ColorList {
    var rgbft: seq<real>

    constructor (values: seq<real>)
      ensures rgbft == values
    {
      rgbft := values;
    }
  }

  /** Finish "material" stands for the material's own finish. */
  function ResolveFinish(useFinish: string, material: string): (f: string)
    ensures useFinish == "material" ==> f == material
    ensures useFinish != "material" ==> f == useFinish
  {
    if useFinish == "material" then material else useFinish
  }

  /** The (transmit, filter) pair that a transparent finish forces onto the
      colour; None for every other finish. */
  function TransparentOverride(finish: string): Option<(real, real)>
  {
    if finish == "SiO2" then Some((0.0, 0.98))
    else if finish == "translucent" then Some((0.02, 0.50))
    else if finish == "glass" then Some((0.0, 0.95))
    else if finish == "irid" then Some((0.0, 0.7))
    else None
  }

  const FinishOpen := "finish \n\t\t\t{ \n\t\t\t"

  /** The finish block appended after the pigment, one piece per piece of
      the source's text: empty for a name color_and_finish does not know
      (such as "dull") and for an empty custom finish. */
  function FinishBlock(finish: string, ior: real, customFinish: string): Text
  {
    if finish == "Si" || finish == "silicon" then
      [Lit(FinishOpen), Lit("diffuse 0.2 \n\t\t\t"), Lit("brilliance 5 \n\t\t\t"),
       Lit("phong 1 \n\t\t\t"), Lit("phong_size 250 \n\t\t\t"), Lit("roughness 0.01 \n\t\t\t"),
       Lit("reflection <0.10, 0.10, 0.5> metallic \n\t\t\t"), Lit(" metallic \n\t\t\t"), Lit("}\n\t\t"),
       Lit("interior { ior 4.24 }\n\t\t")]
    else if finish == "SiO2" then
      [Lit(FinishOpen), Lit("specular 0.6 \n\t\t\t"), Lit("brilliance 5 \n\t\t\t"),
       Lit("roughness 0.001 \n\t\t\t"), Lit("reflection { 0.0, 1.0 fresnel on }\n\t\t\t"), Lit("}\n\t\t"),
       Lit("interior { ior 1.45 }\n\t\t")]
    else if finish == "translucent" then
      [Lit(FinishOpen), Lit("emission 0.25 \n\t\t\t"), Lit("diffuse 0.75 \n\t\t\t"),
       Lit("specular 0.4 \n\t\t\t"), Lit("brilliance 4 \n\t\t\t"),
       Lit("reflection { 0.5 fresnel on }\n\t\t\t"), Lit("}\n\t\t"), Lit("interior { ior "),
       Num(ior, Plain), Lit(" }\n\t\t")]
    else if finish == "glass" then
      [Lit(FinishOpen), Lit("specular 0.6 \n\t\t\t"), Lit("phong 0.8 \n\t\t\t"),
       Lit("brilliance 5 \n\t\t\t"), Lit("reflection { 0.2, 1.0 fresnel on }\n\t\t\t"), Lit("}\n\t\t"),
       Lit("interior { ior 1.5 }\n\t\t")]
    else if finish == "dull_metal" then
      [Lit(FinishOpen), Lit("emission 0.1 \n\t\t\t"), Lit("diffuse 0.1 \n\t\t\t"),
       Lit("specular 1.0 \n\t\t\t"), Lit("roughness 0.001 \n\t\t\t"),
       Lit("reflection 0.5 metallic \n\t\t\t"), Lit(" metallic \n\t\t\t"), Lit("}\n\t\t")]
    else if finish == "bright_metal" then
      [Lit(FinishOpen), Lit("emission 0.2 \n\t\t\t"), Lit("diffuse 0.3 \n\t\t\t"),
       Lit("specular 0.8 \n\t\t\t"), Lit("roughness 0.01 \n\t\t\t"),
       Lit("reflection 0.5 metallic \n\t\t\t"), Lit(" metallic \n\t\t\t"), Lit("}\n\t\t")]
    else if finish == "irid" then
      [Lit(FinishOpen), Lit("phong 0.5 \n\t\t\t"), Lit("reflection { 0.2 metallic }\n\t\t\t"),
       Lit("diffuse 0.3 \n\t\t\t"), Lit("irid { 0.75 thickness 0.5 "), Lit("turbulence 0.5 }\n\t\t\t"),
       Lit("}\n\t\t"), Lit("interior { ior 1.5 }\n\t\t")]
    else if finish == "billiard" then
      [Lit(FinishOpen), Lit("ambient 0.3 \n\t\t\t"), Lit("diffuse 0.8 \n\t\t\t"),
       Lit("specular 0.2 \n\t\t\t"), Lit("roughness 0.005 \n\t\t\t"), Lit("metallic 0.5 \n\t\t\t"),
       Lit("}\n\t\t")]
    else if finish == "custom" then
      (if customFinish == "" then [] else [Txt(customFinish)])
    else []
  }

  /** The names color_and_finish knows. */
  predicate KnownFinish(finish: string)
  {
    || finish == "Si" || finish == "silicon" || finish == "SiO2" || finish == "translucent"
    || finish == "glass" || finish == "dull_metal" || finish == "bright_metal" || finish == "irid"
    || finish == "billiard" || finish == "custom"
  }

  /** A name color_and_finish does not know adds no finish block. */
  lemma FinishBlockUnknown(finish: string, ior: real, customFinish: string)
    requires !KnownFinish(finish)
    ensures FinishBlock(finish, ior, customFinish) == []
  {
  }

  /** Every known name but an empty custom finish adds a block. */
  lemma FinishBlockKnown(finish: string, ior: real, customFinish: string)
    requires KnownFinish(finish) && !(finish == "custom" && customFinish == "")
    ensures FinishBlock(finish, ior, customFinish) != []
  {
  }

  /** "Si" and "silicon" are the same finish. */
  lemma FinishBlockSilicon(ior: real, customFinish: string)
    ensures FinishBlock("Si", ior, customFinish) == FinishBlock("silicon", ior, customFinish)
  {
  }

  /** A 3-element colour gains filter and transmit zeros; others are kept. */
  function Padded(c: seq<real>): seq<real>
  {
    if |c| == 3 then c + [0.0, 0.0] else c
  }

  /** The colour list after `color[3] = transmit; color[4] = filter_`, as far
      as those assignments get before an index goes out of range. */
  function Overridden(c: seq<real>, finish: string): seq<real>
  {
    match TransparentOverride(finish)
    case None => c
    case Some(tf) =>
      if |c| <= 3 then c
      else if |c| == 4 then c[3 := tf.0]
      else c[3 := tf.0][4 := tf.1]
  }

  /** The colour list as color_and_finish leaves it. */
  function Resolved(c: seq<real>, finish: string): seq<real>
  {
    Overridden(Padded(c), finish)
  }

  /** `pigment { color rgbft <r, g, b, f, t> }` */
  function Pigment(c: seq<real>): (t: Text)
    requires |c| >= 5
    ensures |t| == 11
  {
    [Lit("pigment { color rgbft <"), Num(c[0], Plain), Lit(", "), Num(c[1], Plain), Lit(", "),
     Num(c[2], Plain), Lit(", "), Num(c[3], Plain), Lit(", "), Num(c[4], Plain), Lit("> }\n\t\t")]
  }

  /** The colour list color_and_finish reads: the material's default colour
      or the custom colour; None when the material has no default colour. */
  function ChosenColor(defaultColors: map<string, ColorList>, material: string,
                       useDefaultColors: bool, customColor: ColorList): Option<ColorList>
  {
    if !useDefaultColors then Some(customColor)
    else if material in defaultColors then Some(defaultColors[material])
    else None
  }

  /** The colour list color_and_finish may change, if any. */
  function ColorFootprint(o: Option<ColorList>): set<ColorList>
  {
    if o.Some? then {o.value} else {}
  }

  /** The rgbft values the colour lists of a colour dictionary hold, by key. */
  function Rgbs(lists: map<string, ColorList>): (m: map<string, seq<real>>)
    reads lists.Values
    ensures m.Keys == lists.Keys
    ensures forall k :: k in lists ==> m[k] == lists[k].rgbft
  {
    map k | k in lists :: lists[k].rgbft
  }

  /** No two keys of the dictionary share a colour list. */
  predicate Unshared(lists: map<string, ColorList>)
  {
    forall k, k' :: k in lists && k' in lists && k != k' ==> lists[k] != lists[k']
  }

  /** Painting with the default colours: at most the list of `material` was
      resolved with `finish`, and every other default list holds what it held. */
  twostate predicate DefaultsResolved(defaults: map<string, ColorList>, material: string, finish: string)
    reads defaults.Values
  {
    forall k :: k in defaults ==>
      || defaults[k].rgbft == old(defaults[k].rgbft)
      || (k == material && defaults[k].rgbft == Resolved(old(defaults[k].rgbft), finish))
  }

  /** color_and_finish, util_pov.py:110-303. Appends the pigment, the finish
      block and the closing brace of the object to `devString`, padding and
      overriding the chosen colour list in place. */
  method ColorAndFinish(devString: Text, defaultColors: map<string, ColorList>, material: string,
                        useDefaultColors: bool, customColor: ColorList, ior: real,
                        useFinish: string, customFinish: string) returns (r: Result<Text>)
    modifies ColorFootprint(ChosenColor(defaultColors, material, useDefaultColors, customColor))
    ensures ChosenColor(defaultColors, material, useDefaultColors, customColor).None? ==>
      r == Err(KeyError(material))
    ensures ChosenColor(defaultColors, material, useDefaultColors, customColor).Some? ==>
      var col := ChosenColor(defaultColors, material, useDefaultColors, customColor).value;
      && col.rgbft == Resolved(old(col.rgbft), ResolveFinish(useFinish, material))
      && (r.Ok? <==> |col.rgbft| >= 5)
      && (r.Err? ==> r == Err(IndexError))
      && (r.Ok? ==> r.value == devString + Pigment(col.rgbft)
                     + FinishBlock(ResolveFinish(useFinish, material), ior, customFinish)
                     + [Lit("}\n\n\t")])
    ensures Repainted(ColorFootprint(ChosenColor(defaultColors, material, useDefaultColors, customColor)))
    ensures useDefaultColors && Unshared(defaultColors) ==>
      DefaultsResolved(defaultColors, material, ResolveFinish(useFinish, material))
  {
    var chosen := ChosenColor(defaultColors, material, useDefaultColors, customColor);
    if chosen.Some? {
      ResolvedThenTranslucent(chosen.value.rgbft, ResolveFinish(useFinish, material));
    }
    var transmit, filter := 0.0, 0.0;
    var finish := useFinish;
    if finish == "material" {
      finish := material;
    }
    var extra := FinishBlock(finish, ior, customFinish);
    var color: ColorList;
    if useDefaultColors {
      if material !in defaultColors {
        return Err(KeyError(material));
      }
      color := defaultColors[material];
    } else {
      color := customColor;
    }
    if |color.rgbft| == 3 {
      color.rgbft := color.rgbft + [0.0, 0.0];
    }
    var over := TransparentOverride(finish);
    if over.Some? {
      transmit, filter := over.value.0, over.value.1;
      if |color.rgbft| <= 3 {
        return Err(IndexError);
      }
      color.rgbft := color.rgbft[3 := transmit];
      if |color.rgbft| <= 4 {
        return Err(IndexError);
      }
      color.rgbft := color.rgbft[4 := filter];
    }
    if |color.rgbft| < 5 {
      return Err(IndexError);
    }
    var s := devString + Pigment(color.rgbft);
    if extra != [] {
      s := s + extra;
    }
    r := Ok(s + [Lit("}\n\n\t")]);
  }

  /** The colour list succeeds in reaching the pigment line exactly when it
      has 3 elements (and is padded) or at least 5. */
  lemma ResolvedLength(c: seq<real>, finish: string)
    ensures |Resolved(c, finish)| == |Padded(c)|
    ensures |Resolved(c, finish)| >= 5 <==> |c| == 3 || |c| >= 5
  {
  }

  /** Padding and overriding: a colour that reaches the pigment line keeps
      its red, green and blue; its filter and transmit slots are the
      finish's forced pair, or else what it had (zeros after padding). */
  lemma {:induction false} ResolvedSlots(c: seq<real>, finish: string)
    requires |c| == 3 || |c| >= 5
    ensures var r := Resolved(c, finish);
      && |r| == (if |c| == 3 then 5 else |c|)
      && r[0] == c[0] && r[1] == c[1] && r[2] == c[2]
      && (forall i :: 5 <= i < |r| ==> r[i] == c[i])
      && (TransparentOverride(finish).Some? ==>
            r[3] == TransparentOverride(finish).value.0 && r[4] == TransparentOverride(finish).value.1)
      && (TransparentOverride(finish).None? ==>
            r[3] == (if |c| == 3 then 0.0 else c[3]) && r[4] == (if |c| == 3 then 0.0 else c[4]))
  {
    var p := Padded(c);
    assert |p| >= 5;
    assert p[0] == c[0] && p[1] == c[1] && p[2] == c[2];
    assert |c| == 3 ==> p[3] == 0.0 && p[4] == 0.0;
    assert |c| != 3 ==> p == c;
  }

  /** The four transparent finishes and their forced (transmit, filter) pairs. */
  lemma TransparentTable(finish: string)
    ensures TransparentOverride(finish).Some? <==>
      finish in ["SiO2", "translucent", "glass", "irid"]
    ensures TransparentOverride("SiO2") == Some((0.0, 0.98))
    ensures TransparentOverride("translucent") == Some((0.02, 0.50))
    ensures TransparentOverride("glass") == Some((0.0, 0.95))
    ensures TransparentOverride("irid") == Some((0.0, 0.7))
  {
  }

  /** Resolving a colour that was already resolved with the same finish
      changes nothing, so a colour list shared by several features of one
      finish is printed the same each time. */
  lemma ResolvedIdempotent(c: seq<real>, finish: string)
    ensures Resolved(Resolved(c, finish), finish) == Resolved(c, finish)
  {
    if |c| == 3 {
      assert |Resolved(c, finish)| == 5;
    }
  }

  /** Whatever finish a colour list was resolved with, painting it
      "translucent" afterwards gives what painting the original would:
      resolution pads a three-slot list and touches only the transmit and
      filter slots, which "translucent" sets again. */
  lemma ResolvedThenTranslucent(c: seq<real>, finish: string)
    ensures Resolved(Resolved(c, finish), "translucent") == Resolved(c, "translucent")
  {
    var p := Padded(c);
    assert Padded(Resolved(c, finish)) == Overridden(p, finish);
    if |p| >= 5 {
      assert Overridden(Overridden(p, finish), "translucent") == Overridden(p, "translucent");
    }
  }

  /** Two colour lists that print the same once painted "translucent". */
  predicate SameTranslucent(a: seq<real>, b: seq<real>)
  {
    Resolved(a, "translucent") == Resolved(b, "translucent")
  }

  /** Every colour list in `s` was at most resolved since the previous
      state, so it still prints the same once painted "translucent". */
  twostate predicate Repainted(s: set<ColorList>)
    reads s
  {
    forall o :: o in s ==> SameTranslucent(old(o.rgbft), o.rgbft)
  }

  // ---------------------------------------------------------------------
  // Header and camera (util_pov.py:306-452)
  // ---------------------------------------------------------------------

  /** The arguments guess_camera receives. */
  datatype CameraQuery = CameraQuery(deviceDims: seq<real>, coatingDims: seq<real>,
                                     cameraStyle: string, rotate: real, isosurface: bool)

  /** Camera location, look_at point and light location. */
  datatype Camera = Camera(location: seq<real>, lookAt: seq<real>, light: seq<real>)

  /** The camera that the header uses (util_pov.py:404-414, and the same
      code at povray_pov.py:194-204): with camera and light given but no
      look_at, look_at is placed on the z-axis; if anything is still
      missing, guess_camera (the parameter `guess`) supplies all three. */
  function ResolveCamera(deviceDims: seq<real>, coatingDims: seq<real>, cameraStyle: string,
                         rotate: real, cameraLoc: seq<real>, lookAt: seq<real>, lightLoc: seq<real>,
                         isosurface: bool, guess: CameraQuery -> Camera): (r: Result<Camera>)
    ensures lookAt == [] && cameraLoc != [] && lightLoc != [] && |deviceDims| >= 3 && |coatingDims| >= 3
      ==> r == Ok(Camera(cameraLoc, [0.0, 0.0, -0.66 * deviceDims[2] + 0.50 * coatingDims[2]], lightLoc))
    ensures lookAt == [] && cameraLoc != [] && lightLoc != [] && (|deviceDims| < 3 || |coatingDims| < 3)
      ==> r == Err(IndexError)
    ensures cameraLoc == [] || lightLoc == [] ==>
      r == Ok(guess(CameraQuery(deviceDims, coatingDims, cameraStyle, rotate, isosurface)))
    ensures cameraLoc != [] && lookAt != [] && lightLoc != [] ==> r == Ok(Camera(cameraLoc, lookAt, lightLoc))
  {
    var look :=
      if lookAt == [] && cameraLoc != [] && lightLoc != [] then
        if |deviceDims| < 3 || |coatingDims| < 3 then None
        else Some([0.0, 0.0, -0.66 * deviceDims[2] + 0.50 * coatingDims[2]])
      else Some(lookAt);
    if look.None? then Err(IndexError)
    else if cameraLoc == [] || look.value == [] || lightLoc == [] then
      Ok(guess(CameraQuery(deviceDims, coatingDims, cameraStyle, rotate, isosurface)))
    else Ok(Camera(cameraLoc, look.value, lightLoc))
  }

  /** `{v[0]}, {v[1]}, {v[2]}` */
  function V3(v: seq<real>): (t: Text)
    requires |v| >= 3
    ensures |t| == 5
  {
    [Num(v[0], Plain), Lit(", "), Num(v[1], Plain), Lit(", "), Num(v[2], Plain)]
  }

  const Preamble: Text := [Lit("#version 3.7;\n"), Lit("global_settings { assumed_gamma 1.0 }\n\n")]

  /** The background block. Its first and last pieces are plain strings, not
      f-strings, so the doubled braces are printed as they are. */
  function Background(bg: seq<real>): (t: Text)
    requires bg == [] || |bg| >= 3
    ensures |t| == if bg == [] then 0 else 9
  {
    if bg == [] then []
    else [Lit("background {{ "), Lit("color rgb <")] + V3(bg) + [Lit("> "), Lit("}}\n\n")]
  }

  /** `camera { {style} {options}`, where only the orthographic camera has
      the option `angle {ortho_angle}`. */
  function CameraHead(style: string, orthoAngle: real): (t: Text)
    ensures |t| == if style == "orthographic" then 6 else 4
    ensures t[1] == Txt(style)
    ensures style == "orthographic" ==> t[3] == Lit("angle ") && t[4] == Num(orthoAngle, Plain)
    ensures style != "orthographic" ==> t[3] == Lit(" \n\t")
  {
    [Lit("camera \n\t{\n\t"), Txt(style), Lit(" ")]
    + (if style == "orthographic" then [Lit("angle "), Num(orthoAngle, Plain)] else [])
    + [Lit(" \n\t")]
  }

  /** The camera block from `location` to `sky`. */
  function CameraTail(cam: Camera, up: seq<real>, right: seq<real>, sky: seq<real>): (t: Text)
    requires |cam.location| >= 3 && |cam.lookAt| >= 3 && |up| >= 3 && |right| >= 3 && |sky| >= 3
    ensures |t| == 35
    ensures t[..7] == [Lit("location <")] + V3(cam.location) + [Lit(">\n\t")]
    ensures t[7..14] == [Lit("look_at <")] + V3(cam.lookAt) + [Lit(">\n\t")]
  {
    [Lit("location <")] + V3(cam.location) + [Lit(">\n\t")]
    + [Lit("look_at <")] + V3(cam.lookAt) + [Lit(">\n\t")]
    + [Lit("up <")] + V3(up) + [Lit(">\n\t")]
    + [Lit("right <")] + V3(right) + [Lit(">\n\t")]
    + [Lit("sky <")] + V3(sky) + [Lit(">\n\t}\n\n")]
  }

  /** The light source block, with `shadowless` only when requested. */
  function LightBlock(light: seq<real>, shadowless: bool): (t: Text)
    requires |light| >= 3
    ensures |t| == if shadowless then 11 else 10
    ensures t[2..7] == V3(light)
    ensures t[|t| - 1] == Lit("}\n\n")
    ensures t[|t| - 2] == (if shadowless then Lit("shadowless \n\t") else Lit("color rgb <1.0,1.0,1.0> \n\t"))
  {
    [Lit("light_source \n\t"), Lit("{\n\t<")] + V3(light) + [Lit("> \n\t"), Lit("color rgb <1.0,1.0,1.0> \n\t")]
    + (if shadowless then [Lit("shadowless \n\t")] else [])
    + [Lit("}\n\n")]
  }

  predicate HeaderVectorsOk(cam: Camera, up: seq<real>, right: seq<real>, sky: seq<real>, bg: seq<real>)
  {
    |cam.location| >= 3 && |cam.lookAt| >= 3 && |cam.light| >= 3
    && |up| >= 3 && |right| >= 3 && |sky| >= 3 && (bg == [] || |bg| >= 3)
  }

  /** An empty camera style means perspective (util_pov.py:417-418). */
  function DefaultStyle(cameraStyle: string): (style: string)
    ensures style != ""
    ensures cameraStyle != "" ==> style == cameraStyle
  {
    if cameraStyle == "" then "perspective" else cameraStyle
  }

  /** The header text for an already resolved camera and style. */
  function HeaderText(bgColor: seq<real>, style: string, orthoAngle: real, cam: Camera,
                      upDir: seq<real>, rightDir: seq<real>, sky: seq<real>, shadowless: bool): Text
    requires HeaderVectorsOk(cam, upDir, rightDir, sky, bgColor)
  {
    Preamble + Background(bgColor) + CameraHead(style, orthoAngle)
    + CameraTail(cam, upDir, rightDir, sky) + LightBlock(cam.light, shadowless)
  }

  /** write_header_and_camera, util_pov.py:306-452: the header text for the
      camera that ResolveCamera settles on, or IndexError when a vector that
      is printed has fewer than three entries. */
  function WriteHeaderAndCamera(deviceDims: seq<real>, coatingDims: seq<real>, cameraStyle: string,
                                cameraRotate: real, orthoAngle: real, cameraLoc: seq<real>,
                                lookAt: seq<real>, lightLoc: seq<real>, upDir: seq<real>,
                                rightDir: seq<real>, sky: seq<real>, bgColor: seq<real>,
                                shadowless: bool, isosurface: bool,
                                guess: CameraQuery -> Camera): (r: Result<Text>)
    ensures var cam := ResolveCamera(deviceDims, coatingDims, cameraStyle, cameraRotate, cameraLoc,
                                     lookAt, lightLoc, isosurface, guess);
      && (r.Ok? <==> cam.Ok? && HeaderVectorsOk(cam.value, upDir, rightDir, sky, bgColor))
      && (cam.Err? ==> r == Err(cam.error))
      && (cam.Ok? && !HeaderVectorsOk(cam.value, upDir, rightDir, sky, bgColor) ==> r == Err(IndexError))
      && (r.Ok? ==> r.value == HeaderText(bgColor, DefaultStyle(cameraStyle), orthoAngle, cam.value,
                                          upDir, rightDir, sky, shadowless))
  {
    var cam :- ResolveCamera(deviceDims, coatingDims, cameraStyle, cameraRotate, cameraLoc,
                             lookAt, lightLoc, isosurface, guess);
    if !HeaderVectorsOk(cam, upDir, rightDir, sky, bgColor) then Err(IndexError)
    else Ok(HeaderText(bgColor, DefaultStyle(cameraStyle), orthoAngle, cam, upDir, rightDir, sky, shadowless))
  }

  /** Position of the camera block in a header with the given background. */
  function CameraStart(bgColor: seq<real>): nat
  {
    if bgColor == [] then 2 else 11
  }

  /** The header starts with the version line and the gamma setting, and has
      a background block exactly when a background colour is given. */
  lemma HeaderBackground(bgColor: seq<real>, style: string, orthoAngle: real, cam: Camera,
                         upDir: seq<real>, rightDir: seq<real>, sky: seq<real>, shadowless: bool)
    requires HeaderVectorsOk(cam, upDir, rightDir, sky, bgColor)
    ensures var t := HeaderText(bgColor, style, orthoAngle, cam, upDir, rightDir, sky, shadowless);
      && |t| > CameraStart(bgColor) + 1
      && t[..2] == Preamble
      && (t[2] == Lit("background {{ ") <==> bgColor != [])
      && (bgColor != [] ==> t[2..11] == Background(bgColor))
      && t[CameraStart(bgColor)] == Lit("camera \n\t{\n\t")
  {
    HeadOf(Preamble, Background(bgColor), CameraHead(style, orthoAngle), CameraTail(cam, upDir, rightDir, sky),
           LightBlock(cam.light, shadowless));
  }

  /** Where the first two parts of a five-part text sit in it. */
  lemma HeadOf(a: Text, b: Text, c: Text, d: Text, e: Text)
    ensures var t := a + b + c + d + e;
      && |t| == |a| + |b| + |c| + |d| + |e|
      && t[..|a|] == a && t[|a|..|a| + |b|] == b
      && (|b| > 0 ==> t[|a|] == b[0])
      && (|c| > 0 ==> t[|a| + |b|] == c[0])
  {
    var t := a + b + c + d + e;
    assert t == a + (b + (c + d + e));
  }

  /** The camera block names the style and carries `angle` only for the
      orthographic camera. */
  lemma HeaderStyle(bgColor: seq<real>, style: string, orthoAngle: real, cam: Camera,
                    upDir: seq<real>, rightDir: seq<real>, sky: seq<real>, shadowless: bool)
    requires HeaderVectorsOk(cam, upDir, rightDir, sky, bgColor)
    ensures var t := HeaderText(bgColor, style, orthoAngle, cam, upDir, rightDir, sky, shadowless);
      var b := CameraStart(bgColor);
      && |t| > b + 4
      && t[b + 1] == Txt(style)
      && (t[b + 3] == Lit("angle ") <==> style == "orthographic")
      && (style == "orthographic" ==> t[b + 4] == Num(orthoAngle, Plain))
  {
    var head := Preamble + Background(bgColor);
    var ch := CameraHead(style, orthoAngle);
    var tail, light := CameraTail(cam, upDir, rightDir, sky), LightBlock(cam.light, shadowless);
    assert |head| == CameraStart(bgColor);
    SecondIndex(head, ch, tail, light, 1);
    SecondIndex(head, ch, tail, light, 3);
    if style == "orthographic" {
      SecondIndex(head, ch, tail, light, 4);
    } else {
      assert " \n\t"[0] != "angle "[0];
    }
  }

  /** Entry k of the second of four texts, read in their concatenation. */
  lemma SecondIndex(a: Text, c: Text, d: Text, e: Text, k: nat)
    requires k < |c|
    ensures |a + c + d + e| == |a| + |c| + |d| + |e| && (a + c + d + e)[|a| + k] == c[k]
  {
  }

  /** The camera block prints the camera location and look_at point. */
  lemma HeaderCameraPlacement(bgColor: seq<real>, style: string, orthoAngle: real, cam: Camera,
                              upDir: seq<real>, rightDir: seq<real>, sky: seq<real>, shadowless: bool)
    requires HeaderVectorsOk(cam, upDir, rightDir, sky, bgColor)
    ensures var t := HeaderText(bgColor, style, orthoAngle, cam, upDir, rightDir, sky, shadowless);
      var b := CameraStart(bgColor);
      var o := if style == "orthographic" then 2 else 0;
      && |t| > b + 18 + o
      && t[b + 4 + o .. b + 11 + o] == [Lit("location <")] + V3(cam.location) + [Lit(">\n\t")]
      && t[b + 11 + o .. b + 18 + o] == [Lit("look_at <")] + V3(cam.lookAt) + [Lit(">\n\t")]
  {
    var front := Preamble + Background(bgColor) + CameraHead(style, orthoAngle);
    var ct := CameraTail(cam, upDir, rightDir, sky);
    var rest := LightBlock(cam.light, shadowless);
    var t := front + (ct + rest);
    assert HeaderText(bgColor, style, orthoAngle, cam, upDir, rightDir, sky, shadowless) == t;
    assert |front| == CameraStart(bgColor) + (if style == "orthographic" then 6 else 4);
    assert t[|front|..] == ct + rest;
    assert (ct + rest)[..14] == ct[..14];
  }

  /** The light block ends the header, at the light location, with
      `shadowless` exactly when requested. */
  lemma HeaderShadowless(bgColor: seq<real>, style: string, orthoAngle: real, cam: Camera,
                         upDir: seq<real>, rightDir: seq<real>, sky: seq<real>, shadowless: bool)
    requires HeaderVectorsOk(cam, upDir, rightDir, sky, bgColor)
    ensures var t := HeaderText(bgColor, style, orthoAngle, cam, upDir, rightDir, sky, shadowless);
      var s := if shadowless then 1 else 0;
      && |t| >= 10 + s
      && t[|t| - 8 - s .. |t| - 3 - s] == V3(cam.light)
      && (t[|t| - 2] == Lit("shadowless \n\t") <==> shadowless)
  {
    var front := Preamble + Background(bgColor) + CameraHead(style, orthoAngle)
                 + CameraTail(cam, upDir, rightDir, sky);
    var light := LightBlock(cam.light, shadowless);
    var t := front + light;
    assert HeaderText(bgColor, style, orthoAngle, cam, upDir, rightDir, sky, shadowless) == t;
    assert t[|front|..] == light;
  }

  // ---------------------------------------------------------------------
  // Render command (util_pov.py:455-567)
  // ---------------------------------------------------------------------

  /** A render quality outside 0..11 is reset to POV-Ray's default 9. */
  function ClampQuality(q: int): (r: int)
    ensures 0 <= r <= 11
    ensures 0 <= q <= 11 ==> r == q
  {
    if 0 <= q < 12 then q else 9
  }

  /** `povray Input_File_Name={pov} Output_File_Name={img} +H{h} +W{w}` */
  function CommandHead(povName: string, imageName: string, height: int, width: int): (t: Text)
    ensures |t| == 10
  {
    [Lit("povray Input_File_Name="), Txt(povName), Lit(" "), Lit("Output_File_Name="), Txt(imageName),
     Lit(" "), Lit("+H"), Int(height), Lit(" +W"), Int(width)]
  }

  /** The trailing command-line switches, each present only when its setting
      asks for it. */
  function CommandFlags(display: bool, transparent: bool, antialias: bool, numThreads: int,
                        openPng: bool, renderQuality: int, imageName: string): Text
  {
    [if display then Lit(" Display=on") else Lit(" Display=off")]
    + (if transparent then [Lit(" +ua")] else [])
    + (if antialias then [Lit(" +A")] else [])
    + (if numThreads != 0 then [Lit(" +WT"), Int(numThreads)] else [])
    + (if renderQuality != 9 then [Lit(" +Q"), Int(ClampQuality(renderQuality))] else [])
    + (if openPng then [Lit(" && eog "), Txt(imageName)] else [])
  }

  /** The command string render_pov builds (util_pov.py:518-552); running
      it with `system` is not modelled. */
  function RenderCommand(povName: string, imageName: string, height: int, width: int,
                         display: bool, transparent: bool, antialias: bool, numThreads: int,
                         openPng: bool, renderQuality: int): (cmd: Text)
    ensures |cmd| >= 11
    ensures cmd[..10] == CommandHead(povName, imageName, height, width)
    ensures renderQuality != 9 ==>
      var q := |cmd| - (if openPng then 4 else 2);
      0 <= q && cmd[q] == Lit(" +Q") && cmd[q + 1] == Int(ClampQuality(renderQuality))
  {
    var head := CommandHead(povName, imageName, height, width);
    var flags := CommandFlags(display, transparent, antialias, numThreads, openPng, renderQuality, imageName);
    assert (head + flags)[..10] == head;
    head + flags
  }

  /** No setting's switch is part of the fixed head of the command. */
  lemma HeadHasNoSwitch(povName: string, imageName: string, height: int, width: int, x: Tok)
    requires x.Lit? && x.s in [" Display=on", " Display=off", " +ua", " +A", " +WT", " +Q", " && eog "]
    ensures x !in CommandHead(povName, imageName, height, width)
  {
  }

  /** A flag is among the trailing switches exactly when its setting asks
      for it. */
  lemma FlagPieces(display: bool, transparent: bool, antialias: bool, numThreads: int,
                   openPng: bool, renderQuality: int, imageName: string, x: Tok)
    ensures x in CommandFlags(display, transparent, antialias, numThreads, openPng, renderQuality, imageName)
      <==> || x == (if display then Lit(" Display=on") else Lit(" Display=off"))
           || (transparent && x == Lit(" +ua"))
           || (antialias && x == Lit(" +A"))
           || (numThreads != 0 && x in [Lit(" +WT"), Int(numThreads)])
           || (renderQuality != 9 && x in [Lit(" +Q"), Int(ClampQuality(renderQuality))])
           || (openPng && x in [Lit(" && eog "), Txt(imageName)])
  {
    var p0: Text := [if display then Lit(" Display=on") else Lit(" Display=off")];
    var p1: Text := if transparent then [Lit(" +ua")] else [];
    var p2: Text := if antialias then [Lit(" +A")] else [];
    var p3: Text := if numThreads != 0 then [Lit(" +WT"), Int(numThreads)] else [];
    var p4: Text := if renderQuality != 9 then [Lit(" +Q"), Int(ClampQuality(renderQuality))] else [];
    var p5: Text := if openPng then [Lit(" && eog "), Txt(imageName)] else [];
    assert CommandFlags(display, transparent, antialias, numThreads, openPng, renderQuality, imageName)
        == p0 + p1 + p2 + p3 + p4 + p5;
  }

  /** A token of the command is in its head or among the flags. */
  lemma CommandPieces(povName: string, imageName: string, height: int, width: int,
                      display: bool, transparent: bool, antialias: bool, numThreads: int,
                      openPng: bool, renderQuality: int, x: Tok)
    ensures x in RenderCommand(povName, imageName, height, width, display, transparent, antialias,
                              numThreads, openPng, renderQuality)
      <==> || x in CommandHead(povName, imageName, height, width)
           || x in CommandFlags(display, transparent, antialias, numThreads, openPng, renderQuality, imageName)
  {
    assert RenderCommand(povName, imageName, height, width, display, transparent, antialias,
                         numThreads, openPng, renderQuality)
        == CommandHead(povName, imageName, height, width)
           + CommandFlags(display, transparent, antialias, numThreads, openPng, renderQuality, imageName);
  }

  /** Display is switched on exactly when asked for. */
  lemma RenderDisplayOn(povName: string, imageName: string, height: int, width: int,
      display: bool, transparent: bool, antialias: bool, numThreads: int,
      openPng: bool, renderQuality: int)
    ensures Lit(" Display=on") in RenderCommand(povName, imageName, height, width, display, transparent,
                                 antialias, numThreads, openPng, renderQuality)
      <==> display
  {
    HeadHasNoSwitch(povName, imageName, height, width, Lit(" Display=on"));
    CommandPieces(povName, imageName, height, width, display, transparent, antialias, numThreads,
                  openPng, renderQuality, Lit(" Display=on"));
    FlagPieces(display, transparent, antialias, numThreads, openPng, renderQuality, imageName, Lit(" Display=on"));
  }

  /** The display is switched off explicitly when not asked for. */
  lemma RenderDisplayOff(povName: string, imageName: string, height: int, width: int,
      display: bool, transparent: bool, antialias: bool, numThreads: int,
      openPng: bool, renderQuality: int)
    ensures Lit(" Display=off") in RenderCommand(povName, imageName, height, width, display, transparent,
                                 antialias, numThreads, openPng, renderQuality)
      <==> !display
  {
    HeadHasNoSwitch(povName, imageName, height, width, Lit(" Display=off"));
    CommandPieces(povName, imageName, height, width, display, transparent, antialias, numThreads,
                  openPng, renderQuality, Lit(" Display=off"));
    FlagPieces(display, transparent, antialias, numThreads, openPng, renderQuality, imageName, Lit(" Display=off"));
  }

  /** Alpha output is switched on exactly when asked for. */
  lemma RenderAlphaFlag(povName: string, imageName: string, height: int, width: int,
      display: bool, transparent: bool, antialias: bool, numThreads: int,
      openPng: bool, renderQuality: int)
    ensures Lit(" +ua") in RenderCommand(povName, imageName, height, width, display, transparent,
                                 antialias, numThreads, openPng, renderQuality)
      <==> transparent
  {
    HeadHasNoSwitch(povName, imageName, height, width, Lit(" +ua"));
    CommandPieces(povName, imageName, height, width, display, transparent, antialias, numThreads,
                  openPng, renderQuality, Lit(" +ua"));
    FlagPieces(display, transparent, antialias, numThreads, openPng, renderQuality, imageName, Lit(" +ua"));
  }

  /** Anti-aliasing is switched on exactly when asked for. */
  lemma RenderAntialiasFlag(povName: string, imageName: string, height: int, width: int,
      display: bool, transparent: bool, antialias: bool, numThreads: int,
      openPng: bool, renderQuality: int)
    ensures Lit(" +A") in RenderCommand(povName, imageName, height, width, display, transparent,
                                 antialias, numThreads, openPng, renderQuality)
      <==> antialias
  {
    HeadHasNoSwitch(povName, imageName, height, width, Lit(" +A"));
    CommandPieces(povName, imageName, height, width, display, transparent, antialias, numThreads,
                  openPng, renderQuality, Lit(" +A"));
    FlagPieces(display, transparent, antialias, numThreads, openPng, renderQuality, imageName, Lit(" +A"));
  }

  /** A thread count is passed exactly when it is nonzero. */
  lemma RenderThreadsFlag(povName: string, imageName: string, height: int, width: int,
      display: bool, transparent: bool, antialias: bool, numThreads: int,
      openPng: bool, renderQuality: int)
    ensures Lit(" +WT") in RenderCommand(povName, imageName, height, width, display, transparent,
                                 antialias, numThreads, openPng, renderQuality)
      <==> numThreads != 0
  {
    HeadHasNoSwitch(povName, imageName, height, width, Lit(" +WT"));
    CommandPieces(povName, imageName, height, width, display, transparent, antialias, numThreads,
                  openPng, renderQuality, Lit(" +WT"));
    FlagPieces(display, transparent, antialias, numThreads, openPng, renderQuality, imageName, Lit(" +WT"));
  }

  /** A quality is passed exactly when it differs from POV-Ray's default 9. */
  lemma RenderQualityFlag(povName: string, imageName: string, height: int, width: int,
      display: bool, transparent: bool, antialias: bool, numThreads: int,
      openPng: bool, renderQuality: int)
    ensures Lit(" +Q") in RenderCommand(povName, imageName, height, width, display, transparent,
                                 antialias, numThreads, openPng, renderQuality)
      <==> renderQuality != 9
  {
    HeadHasNoSwitch(povName, imageName, height, width, Lit(" +Q"));
    CommandPieces(povName, imageName, height, width, display, transparent, antialias, numThreads,
                  openPng, renderQuality, Lit(" +Q"));
    FlagPieces(display, transparent, antialias, numThreads, openPng, renderQuality, imageName, Lit(" +Q"));
  }

  /** The image is opened in eog exactly when requested. */
  lemma RenderOpensImage(povName: string, imageName: string, height: int, width: int,
      display: bool, transparent: bool, antialias: bool, numThreads: int,
      openPng: bool, renderQuality: int)
    ensures Lit(" && eog ") in RenderCommand(povName, imageName, height, width, display, transparent,
                                 antialias, numThreads, openPng, renderQuality)
      <==> openPng
  {
    HeadHasNoSwitch(povName, imageName, height, width, Lit(" && eog "));
    CommandPieces(povName, imageName, height, width, display, transparent, antialias, numThreads,
                  openPng, renderQuality, Lit(" && eog "));
    FlagPieces(display, transparent, antialias, numThreads, openPng, renderQuality, imageName, Lit(" && eog "));
  }
}
