# RenderTools in Dafny

RenderTools writes POV-Ray scene files for periodic photonic devices. A device
document lists layers. Each layer has a background material, a thickness and
shapes: circles, ellipses, rectangles, polygons and silos. The unit-cell
builder (`create_device` in `util_shapes.py`, and its older copy `write_pov` in
`rendering.py`) turns the layers into prisms and cylinders with a pigment and a
finish. It then replicates the unit cell on a lattice, adds coatings and a
substrate, and tracks the device dimensions used to place the camera. The
isosurface helpers (`util_iso.py`, `povray_iso.py`) format the surfaces that
marching cubes extracts from a field as `mesh2` blocks, and clip them with a
box or prism. The header builders write the version line, the camera, the
light and the background. The render helpers build the `povray` command line
or INI file.

This project models those operations and proves what they promise:

- The scene text is a sequence of tokens (module `Text`). Literal pieces stay
  literal. Numbers, integers and vectors are single tokens that record the
  value and the Python format applied to it. The printed digits are not
  modelled.
- Errors that Python raises are `Result` values: `KeyError`, `IndexError`,
  `TypeError`, `AttributeError`, `NameError`, `ValueError`, `AssertionError`.
  A loop that never ends is `NoTermination`.
- State the source changes in place is modelled in place:
  - the dimension lists are `array<real>`;
  - the cutoffs and the colormap limits are arrays;
  - colour lists are objects of class `ColorList`, because `color_and_finish`
    pads and overrides them and the same object can be reached from several
    places.
- Marching cubes, the colormap and `guess_camera` are function-typed
  parameters.

Quirks of the source are modelled as written:

- the unnumbered `// Coating layer {j+1}` comment in `util_shapes.py`;
- the doubled braces of the plain-string background block;
- `values_per_line` being ignored;
- the height doubled at the end of `create_device`;
- the clamp of the cutoffs being multiplicative, so a cutoff below a negative
  field minimum ends up below that minimum rather than inside the range;
- the colour-extension loop that never ends when no custom colour is given.

## Model

| member | source | states |
|---|---|---|
| Util.Index | util.py:10 | one lookup `val[key]`: the value when `val` is a dictionary holding `key`, KeyError for a missing key, TypeError when `val` is not a dictionary |
| Util.DeepAccess | util.py:3-11 | the loop's result is the lookup along the whole key list, and the empty key list gives `x` back |
| Util.DeepGetAppend | util.py:9-10 | looking up `k1 + k2` is looking up `k1`, then `k2` in what was found; a failure in `k1` is the failure of the whole lookup |
| Util.DeepGetPath | util.py:9-10 | a successful lookup passes through a dictionary holding each key of the path, in order |
| Util.MissingKeyRaises | util.py:9-10 | a key missing on the way makes the whole lookup a KeyError for that key, whatever keys follow |
| UtilIso.SeqMin | util_iso.py:56 | `np.amin` of a nonempty field is one of its values and is below all of them |
| UtilIso.SeqMax | util_iso.py:57 | `np.amax` of a nonempty field is one of its values and is above all of them |
| UtilIso.ClampCutoffs | util_iso.py:59-63 | every cutoff is replaced, in place, by its clamp against the field extrema |
| UtilIso.ClampCases | util_iso.py:60-63 | the three cases of the clamp: `1.0001 * min` at or below the minimum, `0.9999 * max` at or above the maximum, unchanged strictly between |
| UtilIso.ClampStrictlyInside | util_iso.py:53-63 | for a positive field whose range is wide enough, every clamped cutoff lies strictly inside the field's range |
| UtilIso.ClampOutsideForNegativeMin | util_iso.py:60-61 | with a negative minimum the multiplicative nudge moves the cutoff below the minimum (-2 against [-1, 1] becomes -1.0001) |
| UtilIso.Insert | util_iso.py:66 | inserting into a strictly increasing list keeps it strictly increasing and holds exactly the old elements and the new one |
| UtilIso.SortedSet | util_iso.py:66 | `sorted(set(cutoffs))` is strictly increasing, holds exactly the values of the input and is no longer than it |
| UtilIso.SortedSetIdempotent | util_iso.py:66 | a strictly increasing list comes back unchanged |
| UtilIso.ExtremesOfIncreasing | util_iso.py:66-76 | in the sorted cutoffs `min` is the first and `max` the last element |
| UtilIso.Defaulted | util_iso.py:73-76 | a string limit takes the cutoff extreme, ValueError when there are no cutoffs; a numeric limit is kept |
| UtilIso.CmapDefaults | util_iso.py:73-76 | defaulting the limits keeps their number |
| UtilIso.CmapDefaultsOk | util_iso.py:73-76 | with cutoffs, string limits become `min(cutoffs)` and `max(cutoffs)`, numeric ones and all later entries are kept, and nothing fails |
| UtilIso.CmapDefaultsNoCutoffs | util_iso.py:73-76 | without cutoffs the defaulting succeeds exactly when both limits are numeric, and otherwise fails with ValueError |
| UtilIso.SetCmapLimits | util_iso.py:73-76 | the caller's limit list is changed in place to the defaulted limits, and the status is the defaulting's |
| UtilIso.DefaultedLimitsSpanCutoffs | util_iso.py:68-76 | for sorted distinct cutoffs, the limits left as `a` and `b` default to the first and the last cutoff, and every cutoff lies between those two limits |
| UtilIso.Mesh2ParamsFrame | util_iso.py:167-177 | the block opens with the parameter name and the count of triples and closes with `}` |
| UtilIso.WriteMesh2Params | util_iso.py:151-179 | the loop writes the parameter text for `values`; `values_per_line` has no effect |
| UtilIso.Mesh2ParamsRoundTrip | util_iso.py:171-176 | reading the vectors back from the text gives exactly the input triples, in order |
| UtilIso.ItemsLineBreaks | util_iso.py:171-173 | the first `k` triples carry one line break before each even-indexed triple |
| UtilIso.ItemsSeparators | util_iso.py:171-176 | the first `k` triples carry one `, ` after each triple but the very last |
| UtilIso.Mesh2ParamsLineBreaks | util_iso.py:167-177 | the block has one line break before the count and one before each even-indexed triple |
| UtilIso.Mesh2ParamsSeparators | util_iso.py:171-176 | the block has one separator fewer than it has triples, and none when it has no triples |
| UtilIso.ColorArgRange | util_iso.py:98 | the colormap arguments `i / len(cutoffs)` lie in [0, 1) and increase strictly with `i` |
| UtilIso.BlockList | util_iso.py:95-142 | there is one mesh2 block per cutoff |
| UtilIso.MarchingCubes | util_iso.py:105 | marching cubes fails with ValueError exactly for a level outside the field's range, and otherwise gives the surface of that level |
| UtilIso.WriteMesh2Block | util_iso.py:96-142 | one pass of the loop succeeds exactly when the i-th cutoff is within the field's range and then writes that cutoff's block; otherwise it raises ValueError |
| UtilIso.AppendBlocks | util_iso.py:95-142 | when every cutoff is within the field's range the loop appends the blocks of all cutoffs, in order, to the text written so far; otherwise it raises ValueError |
| UtilIso.WriteMeshText | util_iso.py:86-148 | the result is `MeshResult`: the blocks inside a union when there are several cutoffs, or ValueError when a cutoff is outside the field's range |
| UtilIso.ClampedInRange | util_iso.py:57-66 | for a positive field whose range is wide enough, every distinct clamped cutoff is within the field's range |
| UtilIso.ClampedCutoffsMesh | util_iso.py:57-148 | for such a field marching cubes rejects no clamped cutoff and the loop gives the mesh text |
| UtilIso.NegativeMinimumRaises | util_iso.py:57-105 | for a field over [-1, 1] and the cutoff -2 the clamp gives -1.0001 and marching cubes raises ValueError |
| UtilIso.Mesh2BlockCounts | util_iso.py:117-142 | each block opens exactly one `mesh2 {` and no union |
| Text.JoinCount | util_iso.py:95-142 | blocks that each hold `c` copies of a token join to `c` copies per block |
| UtilIso.BlockListCounts | util_iso.py:95-142 | the blocks together hold one `mesh2 {` per cutoff and no union |
| UtilIso.MeshTextBlocks | util_iso.py:86-148 | the mesh text holds one mesh2 block per distinct cutoff |
| UtilIso.MeshTextUnion | util_iso.py:91-92 | the blocks are wrapped in a union exactly when there is more than one cutoff |
| UtilIso.MeshTextEnds | util_iso.py:144-148 | several blocks end with the union's closing brace, one block stands alone, and no cutoffs give no text |
| UtilIso.CreateMesh2Closed | util_iso.py:17-148 | an empty field fails (`np.amin`) and changes nothing; otherwise the cutoffs are clamped in place, the limits are defaulted in place, a defaulting failure is returned, and then the result is the mesh text of the sorted distinct cutoffs, or ValueError when one of them is outside the field's range |
| UtilIso.CreateMesh2 | util_iso.py:17-148 | the same, with the union closed by `\n}` |
| UtilIso.BoxSlice | util_iso.py:182-215 | a corner with fewer than three coordinates raises IndexError; otherwise the text is `intersection {`, then the mesh, and ends with `}` |
| UtilIso.BoxTextInverse | util_iso.py:202-210 | the box carries `inverse` exactly when it is subtracted |
| UtilIso.BoxSliceInverse | util_iso.py:206-213 | slicing adds one `inverse` to the mesh exactly when the box is subtracted |
| UtilIso.BoxSliceCorners | util_iso.py:202-204 | the box's two corners follow the mesh, in order |
| UtilPov.ColorList.constructor | util_pov.py:110-111 | a colour list holds the given rgbft values |
| UtilPov.ResolveFinish | util_pov.py:181-182 | finish `material` stands for the material's own finish; any other finish is kept |
| UtilPov.FinishBlockUnknown | util_pov.py:272-273 | a finish name outside the table adds no finish block |
| UtilPov.FinishBlockKnown | util_pov.py:184-271 | every finish in the table adds a block, except a custom finish left empty |
| UtilPov.FinishBlockSilicon | util_pov.py:184 | `Si` and `silicon` are the same finish |
| UtilPov.Pigment | util_pov.py:292-294 | the pigment line of an rgbft colour |
| UtilPov.ColorAndFinish | util_pov.py:110-303 | a missing default colour raises KeyError; otherwise the chosen colour object is padded and overridden in place, a colour shorter than five entries gives IndexError, and success appends the pigment, the finish block and the closing brace; the changed list, made translucent, prints what the caller's list made translucent would; with the default colours and no list shared by two keys, only the list of the material changes, resolved with the material's finish when `use_finish` is "material" and with `use_finish` otherwise |
| UtilPov.ResolvedLength | util_pov.py:281-294 | the colour reaches the pigment line exactly when it has 3 entries, which are padded, or at least 5 |
| UtilPov.ResolvedSlots | util_pov.py:281-288 | after resolution the rgb entries are unchanged, transmit and filter are the finish's forced pair or else what was there (zeros after padding), and later entries are unchanged |
| UtilPov.TransparentTable | util_pov.py:177-288 | exactly `SiO2`, `translucent`, `glass` and `irid` force (transmit, filter), to (0, 0.98), (0.02, 0.50), (0, 0.95) and (0, 0.7) |
| UtilPov.ResolvedIdempotent | util_pov.py:281-288 | resolving a colour a second time with the same finish changes nothing more |
| UtilPov.ResolvedThenTranslucent | util_pov.py:281-288 | a colour resolved with any finish and then with `translucent` is the colour resolved with `translucent` alone |
| UtilPov.ResolveCamera | util_pov.py:404-414 | a missing look_at is derived from the device and coating heights when camera and light are given (IndexError for short dimension lists); a missing camera or light is guessed; given values are kept |
| UtilPov.Background | util_pov.py:430-433 | no background block without a background colour |
| UtilPov.CameraHead | util_pov.py:420-436 | the camera block names the style, with `angle` only for the orthographic camera |
| UtilPov.CameraTail | util_pov.py:437-441 | the camera block prints the location and then the look_at point |
| UtilPov.LightBlock | util_pov.py:443-450 | the light block prints the light location and ends with `shadowless` when it is requested, else with the white colour line |
| UtilPov.DefaultStyle | util_pov.py:417-418 | an empty camera style is perspective; any other is kept |
| UtilPov.WriteHeaderAndCamera | util_pov.py:306-452 | the header succeeds exactly when the camera resolves and every printed vector has three entries; camera errors are passed on, short vectors give IndexError, and success gives the header text |
| UtilPov.HeaderBackground | util_pov.py:426-435 | the header starts with the version and gamma lines and has a background block exactly when a background colour is given |
| UtilPov.HeaderStyle | util_pov.py:417-436 | the camera block names the style and carries `angle` exactly for the orthographic camera |
| UtilPov.HeaderCameraPlacement | util_pov.py:435-438 | the camera block prints the camera location and its look_at point |
| UtilPov.HeaderShadowless | util_pov.py:443-450 | the light block, at the light location, ends the header, and holds `shadowless` exactly when requested |
| UtilPov.ClampQuality | util_pov.py:536-539 | a quality outside 0..11 is reset to 9; one inside is kept |
| UtilPov.RenderCommand | util_pov.py:518-552 | the command starts with the file names and the size, and a quality other than 9 is passed clamped |
| UtilPov.HeadHasNoSwitch | util_pov.py:518-520 | no setting's switch is part of the fixed head of the command |
| UtilPov.FlagPieces | util_pov.py:522-552 | a switch is in the tail of the command exactly when its setting asks for it |
| UtilPov.CommandPieces | util_pov.py:518-552 | a token of the command is in its head or among the switches |
| UtilPov.RenderDisplayOn | util_pov.py:522-523 | `Display=on` exactly when display is requested |
| UtilPov.RenderDisplayOff | util_pov.py:524-525 | `Display=off` exactly when it is not |
| UtilPov.RenderAlphaFlag | util_pov.py:527-528 | `+ua` exactly when transparency is requested |
| UtilPov.RenderAntialiasFlag | util_pov.py:530-531 | `+A` exactly when anti-aliasing is requested |
| UtilPov.RenderThreadsFlag | util_pov.py:533-534 | `+WT` exactly when the thread count is nonzero |
| UtilPov.RenderQualityFlag | util_pov.py:536-539 | `+Q` exactly when the quality differs from 9 |
| UtilPov.RenderOpensImage | util_pov.py:551-552 | `&& eog` exactly when opening the image is requested |
| PovrayPov.FirstMatch | povray_pov.py:383-397 | the first format, from a given position on, whose pattern is found in the name; none when no later pattern is found |
| PovrayPov.DetectFormat | povray_pov.py:383-397 | the loop gives the first matching format's code, and the name unchanged when a pattern matches; otherwise `.png` is appended and the code is `N` |
| PovrayPov.MatchesSnoc | povray_pov.py:387-388 | a pattern ending in a literal character matches a word only through its last character |
| PovrayPov.SearchSnoc | povray_pov.py:387-388 | an end-anchored pattern ending in a literal is found only when the name ends with that character and the rest is found before it |
| PovrayPov.PlainExtensionMatches | povray_pov.py:374-380 | a dot and three letters match a plain three-letter pattern |
| PovrayPov.StarredExtensionsMatch | povray_pov.py:379-381 | `.jpg` and `.tga` match their starred patterns |
| PovrayPov.ExtensionMatches | povray_pov.py:373-382 | each pattern matches its own extension |
| PovrayPov.ExtensionDetected | povray_pov.py:373-397 | whatever precedes it, a name ending in one of the extensions gets that extension's code and keeps its name |
| PovrayPov.EarlierFormatMisses | povray_pov.py:373-392 | no earlier pattern is found in a name ending in a later format's extension, so the order of the table does not matter |
| PovrayPov.FirstMatchNone | povray_pov.py:386-397 | when no pattern from a position on is found, the search gives none |
| PovrayPov.UpperCaseNotRecognised | povray_pov.py:387-396 | the patterns are case-sensitive: `x.PNG` is not recognised and becomes `x.PNG.png` |
| PovrayPov.UnescapedDot | povray_pov.py:374 | the dot of the patterns is not escaped, so a name ending in `_png` is taken as PNG and keeps its name |
| PovrayPov.FallbackIsStable | povray_pov.py:393-396 | the fallback name with `.png` appended is recognised as PNG, so detecting again changes nothing |
| PovrayPov.IniText | povray_pov.py:400-425 | the INI text is the fixed head with the file names and the size, then the switches |
| PovrayPov.IniSwitchPieces | povray_pov.py:405-425 | a token is among the switches exactly when the setting that writes it asks for it |
| PovrayPov.IniDisplaySwitch | povray_pov.py:405-408 | the display switch comes first, `+D` or `-D` |
| PovrayPov.IniAlphaSwitch | povray_pov.py:410-411 | `+UA` exactly when transparent |
| PovrayPov.IniAntialiasSwitch | povray_pov.py:413-414 | `+A` exactly when anti-aliasing is set |
| PovrayPov.IniThreadsSwitch | povray_pov.py:416-417 | `+WT` exactly when the thread count is nonzero |
| PovrayPov.IniFormatSwitch | povray_pov.py:419-420 | `+F` exactly when the format is not PNG |
| PovrayPov.IniQualitySwitch | povray_pov.py:422-425 | `+Q` exactly when the quality is not 9 |
| PovrayPov.IniQualityInRange | povray_pov.py:422-425 | the quality written last is the clamped one, always within 0..11 |
| PovrayPov.IniNameOfPovName | povray_pov.py:427 | for a name ending in `.pov` only that suffix changes to `.ini` (besides earlier occurrences) |
| PovrayPov.IniNameWithoutPov | povray_pov.py:427 | a name without `.pov` is its own INI name |
| PovrayPov.PovrayCommand | povray_pov.py:434-436 | `povray {ini_name}`, followed by `&& eog {image_name}` exactly when the image is to be opened |
| PovrayPov.RenderPov | povray_pov.py:313-447 | the INI name, the INI text for the detected name and format, and the command |
| PovrayPov.IncludeLines | povray_pov.py:228-229 | one `#include "{f}"` line per include file, in order |
| PovrayPov.ViewingOptions | povray_pov.py:210-217 | an angle is written exactly when the camera is orthographic or the angle is nonzero; it is never zero and is the given one when that is nonzero |
| PovrayPov.WriteIncludes | povray_pov.py:223-230 | the include block for the flag and the list, a list other than the default switching the flag on |
| PovrayPov.WriteHeaderAndCamera | povray_pov.py:107-255 | as the header of util_pov.py, with the include block: success exactly when the camera resolves and every printed vector has three entries, errors passed on otherwise |
| PovrayIso.CreateMesh2 | povray_iso.py:27-156 | create_mesh2 of this file: as in util_iso.py, including the ValueError for a clamped cutoff outside the field's range, with the union closed by `\n}\n\n` |
| PovrayIso.PovrayMeshText | povray_iso.py:99-156 | one mesh2 block per cutoff, and a union opened and closed exactly when there are several cutoffs |
| PovrayIso.PadRange | povray_iso.py:225-229 | a padded bound in [0, 1] is never exactly 0 or 1, stays within [-0.001, 1.001], and is unchanged strictly inside |
| PovrayIso.PadOrder | povray_iso.py:225-229 | padding keeps two bounds in order, strictly when they differ |
| PovrayIso.ScaledOrder | povray_iso.py:225-231 | scaling two padded bounds by a dimension that is not negative keeps them in order |
| PovrayIso.RowOf | povray_iso.py:221-222 | row i of cut_at as the list `min` and `max` read |
| PovrayIso.FirstBad | povray_iso.py:216-222 | the first of the rows that fails (missing row, short row, bound out of [0, 1], missing dimension), with every row before it passing |
| PovrayIso.NoCutError | povray_iso.py:216-231 | a normalisation without error had three rows with two bounds in [0, 1] each, and three dimensions |
| PovrayIso.NoCutErrorConverse | povray_iso.py:216-231 | three rows with two bounds in [0, 1] and three dimensions raise nothing |
| PovrayIso.ScaledRowOrdered | povray_iso.py:216-231 | a row that went through every step ends with its lower bound at most its upper one |
| PovrayIso.RowMin | povray_iso.py:221 | `min(cut_at[i])` is an entry of the row and at most every entry |
| PovrayIso.RowMax | povray_iso.py:222 | `max(cut_at[i])` is an entry of the row and at least every entry |
| PovrayIso.OrderRow | povray_iso.py:218-219 | the first two entries of the row are put in the order [min, max] in place, nothing else changes |
| PovrayIso.OrderedBounds | povray_iso.py:218-222 | the swap does not change whether the row has an entry below 0 or above 1 |
| PovrayIso.PadRow | povray_iso.py:225-229 | both bounds of the row are padded in place, nothing else changes |
| PovrayIso.ScaleRow | povray_iso.py:230-231 | both bounds of the row are multiplied by the dimension in place, nothing else changes |
| PovrayIso.NormaliseRow | povray_iso.py:217-231 | one pass of the outer loop: the error of that row, and the row ordered, then padded, then scaled as far as it got before the error |
| PovrayIso.NormaliseCut | povray_iso.py:216-231 | the first error of the three passes, and each bound of cut_at changed in place as far as its row got; the rest of the array is unchanged |
| PovrayIso.Corners | povray_iso.py:237-242 | the cross-section has four corners |
| PovrayIso.WritePrism | povray_iso.py:245-256 | the loop writes the prism text for the corners |
| PovrayIso.Outline | povray_iso.py:248-250 | the vertex tokens of an outline, one per point, in order |
| PovrayIso.PointLinesVertices | povray_iso.py:248-249 | the lines of the loop list the first k vertices in order |
| PovrayIso.PointLinesAvoid | povray_iso.py:248-249 | the lines of the loop never hold the inverse flag |
| PovrayIso.PrismVertices | povray_iso.py:245-256 | the prism lists the corners in order and closes the outline with the first corner again |
| PovrayIso.PrismCount | povray_iso.py:245-246 | the count the prism declares is the number of vertices it lists, and the sweep runs from the first row's bounds |
| PovrayIso.PrismInverse | povray_iso.py:253-254 | `inverse` is in the prism exactly when the box is subtracted |
| PovrayIso.PrismSliceShape | povray_iso.py:259 | the result is the mesh, verbatim, inside an intersection with the prism, and holds `inverse` exactly when the mesh did or the box is subtracted |
| PovrayIso.CornersClosed | povray_iso.py:237-250 | the prism lists five vertices, the last equal to the first, going round the rectangle |
| PovrayIso.SliceIsosurface | povray_iso.py:189-261 | an error exactly when the normalisation of cut_at raises one, that error, cut_at changed in place as described, and on success the mesh intersected with the prism of the normalised bounds |
| UtilShapes.Max | util_shapes.py:590-591 | Python's `max` of two numbers is one of them and at least both |
| UtilShapes.UpdateDeviceDims | util_shapes.py:570-593 | in place, the footprint becomes the larger of the old and the new extents and the height accumulates, so the footprint never shrinks |
| UtilShapes.CylinderParts | util_shapes.py:29-52 | the cylinder runs between its two ends over the centre, prints the radius, and closes its own brace exactly inside a silo |
| UtilShapes.EllipseParts | util_shapes.py:55-83 | the ellipse runs between its two ends over the centre and is scaled by its halfwidths |
| UtilShapes.EllipseTail | util_shapes.py:55-83 | the ellipse is rotated exactly for a nonzero angle and closes its own brace exactly inside a silo |
| UtilShapes.RectangleIgnoresGeometry | util_shapes.py:102-106 | the corner lines lack the f prefix, so the rectangle's text depends on its angle and silo flag alone |
| UtilShapes.Shift | util_shapes.py:149-151 | each vertex is moved by minus the centre |
| UtilShapes.CreatePolygon | util_shapes.py:121-165 | the caller's vertices are shifted in place; an empty vertex list raises IndexError on the closing vertex; otherwise the prism text of the shifted vertices |
| UtilShapes.PolygonTailVertices | util_shapes.py:153-163 | after the loop the prism lists only the first vertex again |
| UtilShapes.VertexLinesFrame | util_shapes.py:149-152 | the first k lines of the loop read only the first k vertices |
| UtilShapes.VertexToks | util_shapes.py:152 | the outline of a polygon, one vertex token per vertex, in order |
| UtilShapes.VertexLinesVertices | util_shapes.py:149-152 | the lines of the loop list the first k vertices in order |
| UtilShapes.PolygonVertices | util_shapes.py:139-153 | the prism lists every vertex in order, closes the outline with the first one again, and announces that many points |
| UtilShapes.PolygonTextParts | util_shapes.py:143-153 | the head of the prism lists no vertex and the tail only the first one again |
| UtilShapes.PolygonCount | util_shapes.py:141-145 | the prism announces one point more than there are vertices |
| UtilShapes.SlabCorners | util_shapes.py:203-209 | the slab has four corners |
| UtilShapes.AddSlab | util_shapes.py:168-244 | the halfwidth of the lattice and the slab text: the corners shifted by the halfwidth and the translation the layer type chooses |
| UtilShapes.ShiftSlabPoints | util_shapes.py:216-220 | the points are shifted by the halfwidth in place and written in order |
| UtilShapes.SlabLinesFrame | util_shapes.py:216-219 | the first k lines of the loop read only the first k points |
| UtilShapes.SlabVertices | util_shapes.py:203-220 | the slab lists the four shifted corners, then the first again: five points, as its count says |
| UtilShapes.FourCornerVertices | util_shapes.py:212-220 | the same for any four points |
| UtilShapes.SlabTextParts | util_shapes.py:212-220 | the head of the slab lists no vertex and the tail only the first point again |
| UtilShapes.SlabCount | util_shapes.py:212-214 | the slab announces one point more than it has corners |
| UtilShapes.SlabToks | util_shapes.py:219 | the outline of a slab, one token per point, in order |
| UtilShapes.SlabLinesVertices | util_shapes.py:216-219 | the lines of the loop list the first k points in order |
| UtilShapes.SlabCentred | util_shapes.py:193-214 | the sweep runs from minus half the thickness to a hair above half of it, and the shifted parallelogram is symmetric about the origin |
| UtilShapesLayer.ClassifyShapes | util_shapes.py:1197-1205 | one entry per record, in order: `Vacuum` for a vacuum material, else the shape's name; the silo flag says whether some record is vacuum |
| UtilShapesLayer.LayerTypeVacuum | util_shapes.py:1200-1205 | an entry is `Vacuum` exactly for a vacuum record or a shape itself named so; any other entry is the shape's name |
| UtilShapesLayer.SiloTagged | util_shapes.py:913-935 | the pass keeps the number of entries and turns exactly the entries that start a real silo into `silo` |
| UtilShapesLayer.CheckForFalseSilos | util_shapes.py:895-937 | the caller's list is retagged in place; each decision reads the original entries |
| UtilShapesLayer.SiloTaggedKeeps | util_shapes.py:913-935 | a `Vacuum` entry and the last entry never change, and an entry changes only into `silo` |
| UtilShapesLayer.SiloTaggedIff | util_shapes.py:913-935 | a silo is made exactly for a solid entry followed by a vacuum that is not of zero size; that vacuum stays `Vacuum` |
| UtilShapesLayer.XMaxBounds | util_shapes.py:853-870 | the running x maximum is at least 0 and every x coordinate, and is 0 or one of them; the `abs` never changes it |
| UtilShapesLayer.YMaxBounds | util_shapes.py:854-871 | likewise for the y coordinates |
| UtilShapesLayer.ReadVertices | util_shapes.py:862-871 | the loop collects a fresh list of the record's vertices, in order, with the running maxima |
| UtilShapesLayer.FinishFeature | util_shapes.py:644-660 | a feature painted by color_and_finish, the colour counter advanced only for custom colours, accent lines appended when requested, the footprint grown by the feature's extent, the height unchanged; with the default colours the colour is the material's default list as it stood, resolved with the material's finish, and no other default list changes |
| UtilShapesLayer.WriteCircleFeature | util_shapes.py:596-660 | a cylinder of the record's radius, painted; the footprint grows by the radius; with the default colours, in the material's default colour resolved with its finish |
| UtilShapesLayer.WriteEllipseFeature | util_shapes.py:663-730 | a list-valued halfwidths entry raises AttributeError before any change; otherwise the ellipse, painted, the footprint grown by the halfwidths; with the default colours, in the material's default colour resolved with its finish |
| UtilShapesLayer.WriteRectangleFeature | util_shapes.py:733-800 | the same steps as the ellipse writer, for the rectangle; with the default colours, in the material's default colour resolved with its finish |
| UtilShapesLayer.DrawPolygon | util_shapes.py:847-874 | the geometry of the polygon writer: the vertices with their running maxima, shifted by create_polygon with angle 0 |
| UtilShapesLayer.WritePolygonFeature | util_shapes.py:803-892 | a polygon without vertices raises IndexError before any change; otherwise the prism, painted, the footprint grown by the running maxima; with the default colours, in the material's default colour resolved with its finish |
| UtilShapesLayer.DrawSiloOuter | util_shapes.py:991-1049 | the outer-shape branch, as the function `SiloOuter` whose meaning `SiloOuterCases` states |
| UtilShapesLayer.SiloOuterCases | util_shapes.py:991-1049 | the outer shape fails exactly for a listed halfwidths entry of an ellipse or rectangle (AttributeError) and for a polygon without vertices (IndexError); otherwise the text opens the merged difference, the shape kind is set exactly for the four supported kinds, the halfwidths bound is the circle's radius or the mapping's entries, and the holes start at the entry after the silo's own, or at the number of vertices after a polygon, whose vertex loop rebinds `k` |
| UtilShapesLayer.RunEnd | util_shapes.py:1060-1061 | the hole loop's stopping index: at least its start and at most the number of entries |
| UtilShapesLayer.RunMaximal | util_shapes.py:1060-1061 | every entry of the run is tagged `Vacuum`, the run stops at the first other tag or at the end, and a `Vacuum` tag at the start makes the run non-empty |
| UtilShapesLayer.CutSiloHoles | util_shapes.py:1057-1129 | the hole loop, as the function `SiloHoles` that `SiloHolesFrame` and `CircleHoles` characterise |
| UtilShapesLayer.SiloHolesFrame | util_shapes.py:1057-1129 | the holes depend only on the entries of the `Vacuum` run (shapes and tags), the tag that ends it, and record k: two layers that agree on those cut the same holes |
| UtilShapesLayer.CircleHoles | util_shapes.py:1057-1067 | without accent lines a run of circle holes never fails and cuts one cylinder per entry of the run, in order, after which the shape kind is `circle` when the run is not empty |
| UtilShapesLayer.HoleCylindersLength | util_shapes.py:1057-1067 | a run of e - j circle holes is e - j cylinders of 19 tokens |
| UtilShapesLayer.HoleCylindersAt | util_shapes.py:1057-1067 | hole i of the run is the cylinder of record j + i at its own center and radius, from end0 + 0.001 to end1 - 0.001, past both faces of the silo |
| UtilShapesLayer.DrawSilo | util_shapes.py:986-1129 | the difference of the outer shape and its holes, as the function `SiloGeom` that `CircleSilo` characterises |
| UtilShapesLayer.CircleSilo | util_shapes.py:986-1129 | a circle silo without accent lines whose run holds only circles is the outer cylinder between the layer's ends followed by the hole cylinders of the run from the next entry, with the outer radius as its halfwidths and no accent lines |
| UtilShapesLayer.WriteSiloFeature | util_shapes.py:940-1146 | a geometry error is raised before any change; otherwise the silo, painted like any other feature, the footprint grown by the outer halfwidths; with the default colours, in the material's default colour resolved with its finish |
| UtilShapesLayer.Classified | util_shapes.py:1197-1210 | the types the layer loop dispatches on: one per record |
| UtilShapesLayer.LayerTags | util_shapes.py:1193-1210 | the final layer types, one per record |
| UtilShapesLayer.LayerFeatures | util_shapes.py:1213-1255 | every layer has its list of feature entries |
| UtilShapesLayer.FeaturesUnique | util_shapes.py:1213-1255 | and only one |
| UtilShapesLayer.CollectCount | util_shapes.py:1213-1255 | a successful layer has one geometry per feature entry; `Vacuum` entries and unsupported types emit nothing |
| UtilShapesLayer.FoldXBounds | util_shapes.py:658-1144 | the grown x extent is the largest of the start and the features' x extents |
| UtilShapesLayer.FoldYBounds | util_shapes.py:658-1144 | likewise for y |
| UtilShapesLayer.WriteEntry | util_shapes.py:1214-1255 | one pass of the layer loop: an entry's error is raised, and success writes the entry and grows the footprint by it; with the default colours the feature's colour is its material's colour in `rgbs0` (what the default lists printed), resolved with the material's finish, and the default lists keep printing what `rgbs0` does |
| UtilShapesLayer.DispatchEntry | util_shapes.py:1214-1255 | the dispatch on the entry's type: the writer of that type, or nothing for any other type; with the default colours only the material's default list is resolved |
| UtilShapesLayer.FeatureMaterial | util_shapes.py:1214-1255 | every feature written for entry k is made of record k's material |
| UtilShapesLayer.LayerStep | util_shapes.py:1214-1255 | one more feature appends its painted text and grows the extents by its own |
| UtilShapesLayer.LayerAppend | util_shapes.py:1214-1255 | one more entry keeps the state of the loop, including, with the default colours, that every feature so far is painted in its material's colour in `rgbs0` |
| UtilShapesLayer.DefaultAppend | util_shapes.py:1214-1255 | one more feature in its material's default colour keeps every feature in its material's default colour |
| UtilShapesLayer.PickedInPalette | util_shapes.py:644-646 | the colour list an entry may change is one of the layer's |
| UtilShapesLayer.WriteEntries | util_shapes.py:1212-1255 | the loop over the final types writes the painted features in order and grows the footprint; with the default colours each feature is painted in its material's colour in `rgbs0`, resolved with the material's finish, and the default lists keep printing what `rgbs0` does |
| UtilShapesLayer.CreateDeviceLayer | util_shapes.py:1149-1261 | on success the layer is the painted features of its entries followed by `}`, the counter advances once per feature with custom colours, the footprint is the largest feature extent (at least 0) and the height grows by the thickness; every palette list, made translucent, prints as before; with the default colours each feature is painted in its material's colour in `rgbs0`, resolved with the material's finish |
| UtilShapesLayer.FillLayer | util_shapes.py:1193-1261 | create_device_layer once its colour counter is set: the same outcome, the counter moved on by the number of features |
| UtilShapesLayer.LayerTypes | util_shapes.py:1193-1210 | the layer types are the classification of the records, retagged by the false-silo check when some record is vacuum |
| UtilShapesDevice.ExtendColors | util_shapes.py:1358-1364 | an empty colour list with layers to paint never ends (NoTermination); otherwise the list keeps its prefix and grows by whole copies to at least `target`, overshooting by less than one copy; entry i has the colour of original i mod n; the copies are fresh objects shared by every repetition, and two copies are one object exactly when their originals are one object |
| UtilShapesDevice.FirstAlias | util_shapes.py:1358-1358 | the first position of the caller's list that holds the same object as position i: no earlier position does |
| UtilShapesDevice.Slot | util_shapes.py:1362-1364 | the original entry a repeated position comes from is one of the originals |
| UtilShapesDevice.AppendCopies | util_shapes.py:1363-1364 | the inner loop appends exactly one copy of the original list |
| UtilShapesDevice.CopiesIndex | util_shapes.py:1362-1364 | after one more copy the length is still a multiple of n and the new positions map to originals 0 .. n - 1 |
| UtilShapesDevice.AdjCentres | util_shapes.py:1454-1459 | the offset is (n - 1)/2 for odd n and (n - 2)/2 for even n; it picks a copy of the row, and at most one more copy lies right of it than left |
| UtilShapesDevice.WriteGrid | util_shapes.py:1461-1468 | the nested loops write one `object { UnitCell translate ... }` per copy, row by row, at the shifts of the lattice |
| UtilShapesDevice.CellsCount | util_shapes.py:1467-1468 | one object per shift |
| UtilShapesDevice.RowShiftsAt | util_shapes.py:1462-1466 | row i holds its m copies in column order |
| UtilShapesDevice.GridShiftsLength | util_shapes.py:1461-1466 | the grid holds k * ny shifts |
| UtilShapesDevice.GridShiftsAt | util_shapes.py:1461-1466 | copy (i, j) is shift number i * ny + j |
| UtilShapesDevice.GridKeepsRows | util_shapes.py:1461-1466 | a further row keeps the earlier shifts in place |
| UtilShapesDevice.GridLastRow | util_shapes.py:1461-1466 | the last ny shifts are the last row |
| UtilShapesDevice.GridCells | util_shapes.py:1461-1468 | the replication writes exactly nx * ny objects |
| UtilShapesDevice.FeatureListIs | util_shapes.py:1441-1443 | the features the layer writer reports are determined by the layer's records and ends |
| UtilShapesDevice.LayersTextSnoc | util_shapes.py:1396-1444 | the text of one more layer is the text so far followed by that layer's chunk |
| UtilShapesDevice.FootprintSnoc | util_shapes.py:1441-1443 | one more layer grows the footprint by that layer alone |
| UtilShapesDevice.WriteLayer | util_shapes.py:1396-1444 | a missing layer raises KeyError; a layer without shapes writes nothing and changes nothing; otherwise the union, the background slab in the background's coating colour made translucent, and the painted features at the layer's ends, the height raised by the thickness, the footprint grown; with the default colours, lists not shared and none of them a coating colour, each feature is painted in its material's colour in `rgbs0`, resolved with the material's finish |
| UtilShapesDevice.WriteShapedLayer | util_shapes.py:1406-1444 | a layer with shapes logs its height, the features its shape records give and, when its background is a coating colour, that colour made translucent; its text is the chunk of that log; with the default colours each feature is painted in its material's colour in `rgbs0`, resolved with the material's finish |
| UtilShapesDevice.WriteFeatures | util_shapes.py:1436-1444 | after the union and the slab: the features between the layer's ends, logged with the slab's colour; with the default colours each in its material's colour in `rgbs0` |
| UtilShapesDevice.LayerBody | util_shapes.py:1440-1443 | create_device_layer inside the layer loop: the outcome of `CreateDeviceLayer`, and the coating colour lists, which may be palette lists, still print what `coating_color_dict` did once made translucent |
| UtilShapesDevice.ChunkIntro | util_shapes.py:1411-1444 | the pieces one pass appends are that layer's chunk |
| UtilShapesDevice.WriteBackground | util_shapes.py:1413-1434 | no slab unless the background is a coating colour; a missing ior raises KeyError; otherwise the slab over the lattice bumped by 0.0002, painted with the caller's colour of that material made translucent, the dims unchanged |
| UtilShapesDevice.PaintTranslucent | util_shapes.py:1425-1430 | color_and_finish with a coating colour under `translucent`: the list becomes the caller's colour made translucent, an IndexError exactly when it is not a full rgbft list, and the other coating colours still print as the caller gave them |
| UtilShapesDevice.BackgroundIs | util_shapes.py:1419-1434 | the slab as color_and_finish paints it is the background text |
| UtilShapesDevice.WriteLayers | util_shapes.py:1396-1447 | on success the layers are written in order, each layer with shapes logs exactly the features its own shape records give at its ends and height and, when its background is a coating material, that material's colour in `coating_color_dict` made translucent; the text is their chunks, the height is the sum of the thicknesses of the layers with shapes, the footprint is grown layer by layer, and `background` is the last such layer's; with the default colours, lists not shared and none of them a coating colour, every logged feature is painted in its material's colour in `rgbs0`, resolved with the material's finish |
| UtilShapesDevice.LayerPass | util_shapes.py:1396-1444 | one pass keeps the loop's record: text, colour counter, background, height and footprint, and with the default colours the features of every layer logged so far are painted in their material's colour in `rgbs0` |
| UtilShapesDevice.PassExtends | util_shapes.py:1396-1444 | a layer written as `WriteLayer` promises extends the loop's record by that layer |
| UtilShapesDevice.DefaultsLoggedExtend | util_shapes.py:1396-1444 | one more layer painted in the default colours keeps every logged layer painted in them |
| UtilShapesDevice.LayersExtend | util_shapes.py:1396-1444 | one more layer written keeps the record of the layers written |
| UtilShapesDevice.LayersWrittenAt | util_shapes.py:1396-1444 | each written layer is present, starts at the height of the layers below it, and moves the colour counter from its cursor to the next |
| UtilShapesDevice.LayersDisjoint | util_shapes.py:1408-1409 | with non-negative thicknesses a later layer starts no higher than the bottom of an earlier one, so layers do not overlap |
| UtilShapesDevice.CursorCount | util_shapes.py:1366-1443 | the colour counter ends at 0 with default colours and at the number of objects painted otherwise |
| UtilShapesDevice.LastBackgroundNone | util_shapes.py:1403-1404 | `background` stays unbound exactly when no layer has shapes |
| UtilShapesDevice.LastBackgroundSome | util_shapes.py:1403-1404 | otherwise it is the background of the highest layer with shapes |
| UtilShapesDevice.FootprintGrows | util_shapes.py:1441-1443 | the footprint never shrinks, and is non-negative once a layer with shapes is written |
| UtilShapesCreate.SlabOffset | util_shapes.py:1481-1488 | the slabs are shifted along a direction only when its copy count is even |
| UtilShapesCreate.WriteCoatings | util_shapes.py:1494-1508 | no coatings write nothing; coatings with `background` unbound raise NameError; every error is the NameError, an IndexError or a KeyError of a coating material missing a colour or an ior; on success each coating is written at the dims the earlier coatings leave, painted with its material's colour in `coating_color_dict` made translucent |
| UtilShapesCreate.CoatPass | util_shapes.py:1496-1508 | one pass appends coating j's comment and its slab painted with `coating_color_dict[material]` made translucent, and raises the coating height by its thickness |
| UtilShapesCreate.CoatLogged | util_shapes.py:1496-1508 | the loop's record grows by the coating just painted with its material's colour made translucent |
| UtilShapesCreate.CoatChunkIs | util_shapes.py:1497-1505 | the comment and the painted slab are coating j's chunk |
| UtilShapesCreate.CoatsStep | util_shapes.py:1496-1508 | one more coating keeps the loop's record |
| UtilShapesCreate.CoatDimsStep | util_shapes.py:1507-1508 | each update clamps the footprint at 0 and adds the thickness |
| UtilShapesCreate.TranslucentResolved | util_shapes.py:1500-1504 | the `translucent` finish sets transmit 0.02 and filter 0.5 |
| UtilShapesCreate.CoatsExtend | util_shapes.py:1496-1508 | one more coating written keeps the record of the coatings written |
| UtilShapesCreate.CapCopies | util_shapes.py:1533-1534 | `min(5, n)` is at most 5 and n and equals one of them |
| UtilShapesCreate.SubThickness | util_shapes.py:1516-1517 | the substrate is at least 1 thick and at least the thickness in the record, and is one of them |
| UtilShapesCreate.CreateDevice | util_shapes.py:1264-1537 | an empty custom list with layers and custom colours never ends; on success the text is the layers, the grid, the coatings and the substrate as the logs of the loops determine them, with every background slab and every coating in its material's colour in `coating_color_dict` made translucent, the device dims are the footprint widened by the cap with the doubled height, and the coating dims are those the coatings leave; with `use_default_colors` every feature is painted in its material's entry of `default_color_dict` (`subst`, `Si`, `SiO2`), resolved with the material's finish |
| UtilShapesCreate.BuildDevice | util_shapes.py:1264-1537 | the same for either style of coating comment, the default colours included |
| UtilShapesCreate.DefaultLayers | util_shapes.py:1349-1447 | the layer loop over a fresh `default_color_dict`: what `WriteLayers` promises, with every feature painted in its material's default colour when the default colours are used |
| UtilShapesCreate.DefaultColors | util_shapes.py:1349-1353 | `subst`, `Si` and `SiO2` with their default colours, as fresh lists, no two of them the same list |
| UtilShapesCreate.CustomPalette | util_shapes.py:1357-1364 | with default colours the list is returned as is; else an empty one with layers never ends, and otherwise the list grows by copies to at least three per layer |
| UtilShapesCreate.FinishDevice | util_shapes.py:1446-1537 | after the layers: the grid, the coatings, the substrate and the final dims, as Built states them |
| UtilShapesCreate.CapDims | util_shapes.py:1529-1535 | the last two updates leave the device dims array at DeviceDims |
| UtilShapesCreate.ReplicateAndCoat | util_shapes.py:1446-1514 | the close of the unit cell, the merged grid, the coatings (each in its material's colour made translucent) and the substrate comment appended, the coating dims as the coatings leave them |
| UtilShapesCreate.PaintSubstrate | util_shapes.py:1519-1524 | the substrate slab appended and the whole text painted with `subst` made dull; a short `subst` list raises IndexError |
| UtilShapesCreate.ThicknessSnoc | util_shapes.py:1507-1508 | the coatings' total thickness grows by the next one |
| UtilShapesCreate.CoatHeight | util_shapes.py:1507-1508 | after k coatings the coating height is the start plus their total thickness |
| UtilShapesCreate.CoatFootprint | util_shapes.py:1491-1508 | after any coating the footprint of the coating dims is the shifted start clamped at 0 |
| UtilShapesCreate.CoatsTextEmpty | util_shapes.py:1495 | without coatings there is no coating text |
| UtilShapesCreate.CoatsAt | util_shapes.py:1496-1508 | every coating written has a colour and an ior, sits at its dims and is painted with its material's colour in `coating_color_dict` made translucent |
| UtilShapesCreate.CoatsFlush | util_shapes.py:1498-1508 | coating k spans from the height below it to the height above it, so coatings stack without gaps |
| UtilShapesCreate.SubstrateFlush | util_shapes.py:1490-1520 | the substrate's top face lies at -height, right under the layers |
| UtilShapesCreate.SubstrateDefault | util_shapes.py:1349-1524 | the default `subst` colour passes the dull finish unchanged |
| UtilShapesCreate.DeviceDimsCap | util_shapes.py:1529-1535 | the footprint is multiplied by min(5, n) from one copy on and left as is otherwise, staying between 1 and 5 times the unit cell; the height is twice layers plus substrate |
| Rendering.WritePov | rendering.py:1-286 | write_pov builds what create_device builds, with each coating comment numbered, the default colours of the features included |
| Rendering.SameWithoutCoatings | rendering.py:245-259 | without coatings the two copies return the same text and dims |

## Left out

- Printing the digits of a number: a `Num` token records the value and the Python format (`{x}` or `{x:.nf}`). Python prints an `int` and a `float` differently (`1` and `1.0`); the model does not tell them apart. This matters for `max(1, thickness)`, the `[0, 0, 0]` start of the dims and the integer ior 1 of the substrate.
- The device document as JSON: `create_device` reads a typed record. A missing layer index raises KeyError. Missing `statepoint`, `num_layers`, `lattice_vecs` or other keys, and values of the wrong type, are not modelled.
- `add_accent_lines` (util_shapes.py:327-567): its sin, cos and sqrt placement is not modelled. Each call is an `Accent` token that records the shape kind, the top and the feature height.
- `create_torus` (util_shapes.py:247-302), `create_sphere` (util_shapes.py:305-324) and `isosurface_unit_cell` (util_shapes.py:1540-1660) are not part of this model. Only `add_accent_lines` and the isosurface scripts call them. The torus carries the same missing f-prefix quirk as the rectangle.
- The copy of `color_and_finish` at util_shapes.py:1663-1844 has the same code as util_pov.py:110-303. `UtilPov.ColorAndFinish` models both.
- `guess_camera` (util_pov.py:15-107, povray_pov.py:12-104) is the `guess` parameter of the header builders. Its trigonometric estimate is not modelled.
- `marching_cubes_lewiner` is `MarchingCubes`: its ValueError for a level outside the field's range is modelled, and the surface it returns is the `mc` parameter. Its failures that depend on the geometry, such as finding no surface at a level, are not modelled. The matplotlib colormap is the `cm` parameter. The field is a flat sequence of reals: only its minimum and maximum matter, and it is empty exactly when numpy would raise ValueError.
- The field reductions of povray_iso.py:264-423 and util_field.py use numpy axis operations, complex arithmetic and square roots. They are not part of this model.
- `write_pov_file` (povray_pov.py:258-310) writes files and runs `grep` and `sed`. The writing of the `.ini` file, the `system` calls behind `render`, and the scripts write_POV.py, call_gif_POV.py, call_isosurface.py and call_write_POV.py are file and process I/O. The model returns the texts and command lines they would write or run.
- The warnings the core prints (`print`) are not modelled. Neither are `print(cmap_limits)` and the per-cutoff prints of `create_mesh2`.
- Mutable default arguments are not modelled. The default `cut_at` of `slice_isosurface` and the default colour dicts keep in-place changes from one call to the next. The model takes them as parameters on every call.
- UtilShapesCreate.CustomPalette: the source appends the copies to the caller's `custom_colors` list in place. The model returns the extended list, and the caller's sequence is not updated.
- UtilShapesLayer.CreateDeviceLayer: with custom colours each feature's colour is said only to be a full rgbft list; the tie to the palette entry is stated per entry by `UtilShapesLayer.FinishFeature`. The conditions under which the layer fails are not characterised.
- UtilShapesLayer.WriteEntries: likewise, the loop states only the successful outcome.
- UtilShapesDevice.WriteLayers: the conditions under which a layer fails (other than a missing layer index) are not characterised; the contract states only the successful outcome. With custom colours the feature colours are said only to be full rgbft lists: the lists of `custom_colors` may be one another or coating colour lists, and each is resolved in turn with the finish of every feature painted with it.
- UtilShapesDevice.WriteLayer: with custom colours the feature colours are said only to be full rgbft lists, for the reason given under `WriteLayers`.
- UtilShapesDevice.WriteShapedLayer: likewise.
- UtilShapesCreate.WriteCoatings: an IndexError (a coating colour that is not a full rgbft list once padded) is among the allowed errors, but the contract does not say when it happens.
- UtilShapesCreate.FinishDevice: the substrate colour `sub` is said only to be a full rgbft list. It is the `subst` entry as the layer loop leaves it, made dull.
- UtilShapesCreate.CreateDevice: the same gaps as `WriteLayers` (errors, and the feature colours with custom colours) and `FinishDevice` (the substrate colour). The only error it characterises is the never-ending colour extension.
- UtilShapesCreate.BuildDevice: likewise.
- Rendering.WritePov: likewise.
- Floating point: Python's floats are modelled as exact reals, and IEEE rounding is not modelled. This matters where the source compares or sums computed values. The clamp products `1.0001 * min` and `0.9999 * max` are exact before `set()` removes duplicates: for a field `[0.3, 1.0]` with cutoffs `[0.2, 0.30003]` the model clamps both to 0.30003 and writes one block, while Python computes `1.0001 * 0.3` as 0.30002999999999996 and writes two. The slab heights and the thickness sums are exact as well, so `UtilShapesCreate.CoatsFlush`, `UtilShapesCreate.SubstrateFlush` and `UtilShapesDevice.LayersDisjoint` hold for the reals and may be off by a rounding error in Python.
- PovrayIso.NormaliseCut: `cut_at` is a rectangular `array2<real>`, so every row has the same number of bounds. Ragged rows, and rows that are one shared list object (such as `[[0.5, 1]] * 3`, whose single row the loop would normalise three times), are not modelled.
- PovrayIso.SliceIsosurface: the same limits on the shape of `cut_at`.
