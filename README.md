# SVG-Import path fixture, modelled in Dafny

SVG-Import is a Chromatik (LX) plugin. It turns the `d` attribute of an SVG
`<path>` into a fixture whose lighting points lie along the path. This project
models the core of that pipeline and proves properties about it:

- **Reading path data.** Two versions of `parseSVGPath` are modelled.
  - The newer reader (`studio.jkb.svg.SvgUtils`) handles M, L, H, V and Z.
  - The older reader (`jkbstudio.svg.SvgUtils`) also handles C, S, Q, T and A. It keeps the last control points in static fields.
    These fields start out null, and S and T read them before they store anything. So both fields stay null for the life of the program, and every complete S or T group throws a NullPointerException.
  - Both share the lexical layer:
    - a zero-width split before each command letter;
    - trimming, and splitting operands on spaces and commas;
    - number conversion that drops a bad token and logs a warning.
  - `java.awt.geom.Path2D` is replaced by a list of segments. The list keeps Path2D's own rules:
    - a moveTo that follows a moveTo replaces it;
    - a closePath that follows a closePath adds nothing;
    - drawing before the first moveTo throws.
- **Arcs.** `addArcToPath` covers:
  - the two degenerate cases;
  - the endpoint-to-centre conversion of sections F.6.5 and F.6.6 of the SVG 1.1 implementation notes;
  - the sweep adjustment, the segment count, and the curveTo loop.
- **Units.** Both copies of the `DistanceUnits` enum are modelled: their scale table, `convert`, `to`, `from`, and `getOptionsSingular`.
- **The fixture (`PathFixture`).** The fixture is a class whose fields the operations update:
  - `rebuildCoordinates` turns every moveTo and lineTo into a coordinate in model units;
  - `calcCoordsLength` measures the path: `distPrev`, `distOverall`, the normalised position `n`, and the total length;
  - `refreshSizeForSpacing`, `getModelSpacing`, `getActiveLength` and `size` give the point count;
  - `computePointGeometry` and `_computePointsOnPath` place the points by walking the coordinates;
  - `onParameterChanged` decides which of these to redo;
  - `removeExtension` is a helper for file names.
- **Group parameters.** Two classes of parameters with children are modelled.
  - `SumParameter` has no duplicate children, and its value is the sum of their values.
  - `SyncParameter` pushes a lead value to its children. A child changed from outside turns sync off. The `isUs` flag marks the proxy's own changes.

Doubles are modelled as `real`. Library code the model cannot see is passed in as a function parameter:

- `Double.parseDouble` is `parse: string -> Option<real>`.
- `Math.sqrt` of the coordinate distance is `norm: (real, real) -> real`. Only its non-negativity is assumed.
- Trigonometry and square roots of the arc code come in a `MathLib` record.

The methods follow the Java loops and are proved equal to specification functions. The properties are proved about those functions, and the proofs and contracts are listed below.

## Model

| member | source | states |
|---|---|---|
| DistanceUnits.ScaleFactor | src/main/java/studio/jkb/DistanceUnits.java:12-17 | every scale factor is positive, and only inches has factor 1 |
| DistanceUnits.Convert | src/main/java/studio/jkb/DistanceUnits.java:56-58 | the result times the source unit's factor equals the value times the target unit's factor |
| DistanceUnits.To | src/main/java/studio/jkb/DistanceUnits.java:48-50 | converts from the receiver's unit into `to`, by the same scale relation |
| DistanceUnits.From | src/main/java/studio/jkb/DistanceUnits.java:52-54 | converts from `from` into the receiver's unit, by the same scale relation |
| DistanceUnits.OptionsSingular | src/main/java/studio/jkb/DistanceUnits.java:60-64 | the singular names in declaration order: Inch, Foot, Yard, Millimeter, Centimeter, Meter |
| DistanceUnits.ConvertSameUnit | src/main/java/studio/jkb/DistanceUnits.java:56-58 | converting into the same unit is the identity |
| DistanceUnits.ConvertRoundTrip | src/main/java/studio/jkb/DistanceUnits.java:56-58 | converting a→b→a gives back the value |
| DistanceUnits.ConvertComposes | src/main/java/studio/jkb/DistanceUnits.java:56-58 | converting a→b→c equals converting a→c |
| DistanceUnits.ToFromAgree | src/main/java/studio/jkb/DistanceUnits.java:48-54 | `a.to(b, v)`, `b.from(a, v)` and `convert(a, b, v)` agree |
| LegacyDistanceUnits.ScaleFactor | src/main/java/jkbstudio/DistanceUnits.java:4-9 | every scale factor is positive, and only inches has factor 1 |
| LegacyDistanceUnits.Convert | src/main/java/jkbstudio/DistanceUnits.java:42-44 | the same scale relation as the newer enum |
| LegacyDistanceUnits.To | src/main/java/jkbstudio/DistanceUnits.java:34-36 | converts from the receiver's unit |
| LegacyDistanceUnits.From | src/main/java/jkbstudio/DistanceUnits.java:38-40 | converts into the receiver's unit |
| LegacyDistanceUnits.ConvertSameUnit | src/main/java/jkbstudio/DistanceUnits.java:42-44 | converting into the same unit is the identity |
| LegacyDistanceUnits.ConvertRoundTrip | src/main/java/jkbstudio/DistanceUnits.java:42-44 | converting a→b→a gives back the value |
| LegacyDistanceUnits.AgreesWithCurrentTable | src/main/java/jkbstudio/DistanceUnits.java:4-44 | the older enum has the same names, abbreviations, factors and conversions as the newer one |
| Path2D.MoveTo | src/main/java/studio/jkb/svg/SvgUtils.java:79 | ends the path with the moveTo, replacing a trailing moveTo, and keeps the path's shape rules |
| Path2D.Draw | src/main/java/studio/jkb/svg/SvgUtils.java:86 | throws exactly on an empty path; otherwise appends the segment and keeps the shape rules |
| Path2D.ClosePath | src/main/java/studio/jkb/svg/SvgUtils.java:101 | throws exactly on an empty path; otherwise ends the path with one close, never two in a row |
| PathLexer.ToUpper | src/main/java/studio/jkb/svg/SvgUtils.java:60-61 | upper-cases exactly the lower-case letters |
| PathLexer.NextCommand | src/main/java/studio/jkb/svg/SvgUtils.java:52 | the first command letter at or after i, with none skipped |
| PathLexer.ChunksProperties | src/main/java/studio/jkb/svg/SvgUtils.java:52 | joining the pieces gives back the data; each later piece starts with a command letter and holds no other |
| PathLexer.SplitCommandsJoin | src/main/java/studio/jkb/svg/SvgUtils.java:52 | the split loses no character, and each piece after the first starts with a command letter |
| PathLexer.TrimStart | src/main/java/studio/jkb/svg/SvgUtils.java:59 | removes exactly the leading characters up to U+0020 |
| PathLexer.TrimEnd | src/main/java/studio/jkb/svg/SvgUtils.java:59 | removes exactly the trailing characters up to U+0020 |
| PathLexer.RunEnd | src/main/java/studio/jkb/svg/SvgUtils.java:59 | the first separator at or after i |
| PathLexer.Runs | src/main/java/studio/jkb/svg/SvgUtils.java:59 | the runs are non-empty and contain no space or comma |
| PathLexer.SplitOperands | src/main/java/studio/jkb/svg/SvgUtils.java:59 | every non-empty token is one of the runs |
| PathLexer.ConvertOperands | src/main/java/studio/jkb/svg/SvgUtils.java:64-73 | the conversion loop yields the numbers and warnings that `Operands` defines |
| PathLexer.OperandsAccountForEveryToken | src/main/java/studio/jkb/svg/SvgUtils.java:64-73 | every non-empty token gives exactly one number or one warning |
| PathLexer.OperandsAllNumbers | src/main/java/studio/jkb/svg/SvgUtils.java:64-73 | when every token parses, the numbers are the parsed tokens in order and there is no warning |
| PathLexer.OperandsSkipBadToken | src/main/java/studio/jkb/svg/SvgUtils.java:67-71 | a bad token is dropped with one BadNumber warning and leaves the numbers as if it were absent |
| SvgUtils.ParseSvgPath | src/main/java/studio/jkb/svg/SvgUtils.java:50-110 | the command loop returns what `ParsePath` defines, stopping at the first exception |
| SvgUtils.Interpret | src/main/java/studio/jkb/svg/SvgUtils.java:57-75 | one command piece: operand conversion, then the switch |
| SvgUtils.Perform | src/main/java/studio/jkb/svg/SvgUtils.java:75-107 | the switch on the command letter, including the L loop, equals `Act` |
| SvgUtilsProperties.MoveCommand | src/main/java/studio/jkb/svg/SvgUtils.java:76-80 | M reads two operands (throws when fewer), sets or adds the current point, and applies one moveTo to the earlier path, which is kept |
| SvgUtilsProperties.LineCommand | src/main/java/studio/jkb/svg/SvgUtils.java:82-88 | L appends one lineTo per complete pair to the earlier path and ignores an odd tail; it throws before any moveTo |
| SvgUtilsProperties.LinesDrawn | src/main/java/studio/jkb/svg/SvgUtils.java:82-88 | on a started path, L appends exactly the segments of `Lines`, taken from the current point |
| SvgUtilsProperties.LineAbsolute | src/main/java/studio/jkb/svg/SvgUtils.java:84-86 | for absolute L, endpoint j is pair j itself |
| SvgUtilsProperties.LineRelative | src/main/java/studio/jkb/svg/SvgUtils.java:84-86 | for relative l, endpoint j is the current point plus the running sums of pairs 0 to j |
| SvgUtilsProperties.LineRelativeSteps | src/main/java/studio/jkb/svg/SvgUtils.java:84-86 | for relative l, the first endpoint is the current point plus the first pair, and each later one is the endpoint before it plus its pair |
| SvgUtilsProperties.PairSumShift | src/main/java/studio/jkb/svg/SvgUtils.java:83-85 | dropping the first pair takes its operand off every running sum |
| SvgUtilsProperties.LineEndsAtCurrent | src/main/java/studio/jkb/svg/SvgUtils.java:84-86 | after L with at least one pair, the current point is the last endpoint drawn |
| SvgUtilsProperties.HorizontalCommand | src/main/java/studio/jkb/svg/SvgUtils.java:90-93 | H changes only x and draws one lineTo; with no operand it throws |
| SvgUtilsProperties.VerticalCommand | src/main/java/studio/jkb/svg/SvgUtils.java:95-98 | V changes only y, taken from the second operand as written; fewer than two operands throw |
| SvgUtilsProperties.CloseCommand | src/main/java/studio/jkb/svg/SvgUtils.java:100-102 | Z keeps the earlier path and adds one close unless the path already ends closed; the current point and warnings are unchanged; it throws on an empty path |
| SvgUtilsProperties.UnknownCommandIgnored | src/main/java/studio/jkb/svg/SvgUtils.java:104-106 | any other letter only logs a warning |
| SvgUtilsProperties.ParsePathWellFormed | src/main/java/studio/jkb/svg/SvgUtils.java:50-110 | every parsed path obeys Path2D's shape rules |
| SvgUtilsProperties.EmptyPathData | src/main/java/studio/jkb/svg/SvgUtils.java:52-57 | empty data parses to an empty path with no warning |
| SvgArc.AdjustSweep | src/main/java/jkbstudio/svg/SvgUtils.java:267-271 | the sweep is made negative for sweepFlag false and positive for true, by at most one turn |
| SvgArc.NumSegments | src/main/java/jkbstudio/svg/SvgUtils.java:275 | between 0 and 4 cubics, and 0 exactly for a zero sweep |
| SvgArc.NumSegmentsIsCeil | src/main/java/jkbstudio/svg/SvgUtils.java:275 | the count equals `Math.ceil(abs(sweep) / 90)` |
| SvgArc.Ceil | src/main/java/jkbstudio/svg/SvgUtils.java:275 | the least integer not below r |
| SvgArc.SegmentSpan | src/main/java/jkbstudio/svg/SvgUtils.java:275-276 | each cubic spans at most 90 degrees |
| SvgArc.CubicsFrom | src/main/java/jkbstudio/svg/SvgUtils.java:279-306 | `count` cubic segments |
| SvgArc.CubicsFromAt | src/main/java/jkbstudio/svg/SvgUtils.java:279-306 | cubic k runs from the k-th accumulated angle to the next one |
| SvgArc.AngleAfterIsLinear | src/main/java/jkbstudio/svg/SvgUtils.java:276-305 | the angle accumulated over k steps is start + k·delta |
| SvgArc.SweepSplits | src/main/java/jkbstudio/svg/SvgUtils.java:275-280 | n steps of sweep/n in radians add up to the sweep in radians |
| SvgArc.CubicsCoverSweep | src/main/java/jkbstudio/svg/SvgUtils.java:275-306 | the first cubic starts at the start angle and the last ends at start + sweep |
| SvgArc.ArcSegments | src/main/java/jkbstudio/svg/SvgUtils.java:213-306 | at most 4 segments, each a lineTo or a curveTo |
| SvgArc.AddArc | src/main/java/jkbstudio/svg/SvgUtils.java:205-307 | on a started path, appends the arc's segments; it throws exactly when the path is empty and something is drawn |
| SvgArc.DrawCubics | src/main/java/jkbstudio/svg/SvgUtils.java:279-306 | the curveTo loop appends the cubics in order |
| SvgArc.AddArcToPath | src/main/java/jkbstudio/svg/SvgUtils.java:205-307 | the method equals `AddArc` |
| SvgArc.SamePointAddsNothing | src/main/java/jkbstudio/svg/SvgUtils.java:213 | identical endpoints leave the path unchanged |
| SvgArc.ZeroRadiusDrawsLine | src/main/java/jkbstudio/svg/SvgUtils.java:214-217 | a zero radius draws one lineTo to the endpoint |
| SvgArc.ProperArcDrawsCubics | src/main/java/jkbstudio/svg/SvgUtils.java:219-306 | a proper arc draws only cubics, and none exactly when the adjusted sweep is 0 |
| SvgArc.CubicEndsOnEllipse | src/main/java/jkbstudio/svg/SvgUtils.java:291-303 | with the source's control points, a cubic ends on the ellipse at its second angle |
| SvgArc.ArcEndsOnEllipse | src/main/java/jkbstudio/svg/SvgUtils.java:264-306 | the last cubic of a proper arc ends on the ellipse at start + adjusted sweep |
| SvgArc.Rotated | src/main/java/jkbstudio/svg/SvgUtils.java:220-228 | distinct endpoints give a non-zero rotated half-difference |
| SvgArc.RadiiScale | src/main/java/jkbstudio/svg/SvgUtils.java:239-245 | the radii are scaled by sqrt(radiiCheck) when it exceeds 1, and never shrink |
| SvgArc.CorrectedRadii | src/main/java/jkbstudio/svg/SvgUtils.java:231-245 | the corrected radii are at least the absolute given radii, and positive |
| SvgArc.Radicand | src/main/java/jkbstudio/svg/SvgUtils.java:249-250 | the centre radicand is clamped to be non-negative |
| SvgArc.Angles | src/main/java/jkbstudio/svg/SvgUtils.java:260-265 | the start angle is in (-180, 180] and the raw sweep is strictly inside one turn |
| SvgArc.CenterParameters | src/main/java/jkbstudio/svg/SvgUtils.java:219-265 | the corrected radii, and angle ranges that make the sweep adjustment and segment count well defined |
| SvgArc.SourceCentreIsValid | src/main/java/jkbstudio/svg/SvgUtils.java:219-271 | the written-out centre conversion meets what the drawing part assumes of it |
| LegacySvgUtils.Arity | src/main/java/jkbstudio/svg/SvgUtils.java:88-192 | the group size of L, C, S, Q, T, A is 2, 6, 4, 4, 2, 7 |
| LegacySvgUtils.SvgUtils.constructor | src/main/java/jkbstudio/svg/SvgUtils.java:50-51 | both static control points start out null |
| LegacySvgUtils.SvgUtils.ParseSvgPath | src/main/java/jkbstudio/svg/SvgUtils.java:56-200 | returns the path or the exception and the warnings, and leaves the static control points as `ParsePath` says, even after an exception; fields that were both null stay null |
| LegacySvgUtils.SmoothGroupThrows | src/main/java/jkbstudio/svg/SvgUtils.java:127-172 | with both control points null, the first complete S or T group throws before drawing or storing anything |
| LegacySvgUtils.GroupStepKeepsNull | src/main/java/jkbstudio/svg/SvgUtils.java:88-192 | no group step stores a control point while both are null, whether it succeeds or throws |
| LegacySvgUtils.GroupsKeepNull | src/main/java/jkbstudio/svg/SvgUtils.java:88-192 | a whole group loop keeps both control points null |
| LegacySvgUtils.ActKeepsNull | src/main/java/jkbstudio/svg/SvgUtils.java:81-196 | the command switch keeps both control points null |
| LegacySvgUtils.ApplyCommandKeepsNull | src/main/java/jkbstudio/svg/SvgUtils.java:63-196 | one command piece keeps both control points null |
| LegacySvgUtils.ParseCommandsKeepNull | src/main/java/jkbstudio/svg/SvgUtils.java:62-198 | the command loop keeps both control points null, up to the exception that ends it |
| LegacySvgUtils.ParsePathKeepsNull | src/main/java/jkbstudio/svg/SvgUtils.java:50-200 | a call that starts with both static fields null leaves them null, whether it returns or throws |
| LegacySvgUtils.RunCommands | src/main/java/jkbstudio/svg/SvgUtils.java:62-198 | the command loop equals `ParseCommands` |
| LegacySvgUtils.Interpret | src/main/java/jkbstudio/svg/SvgUtils.java:63-81 | one command piece equals `ApplyCommand` |
| LegacySvgUtils.RunGroups | src/main/java/jkbstudio/svg/SvgUtils.java:89-192 | each group loop equals `Groups` |
| LegacySvgUtils.Step | src/main/java/jkbstudio/svg/SvgUtils.java:88-192 | one pass of a group loop equals `GroupStep` |
| LegacySvgUtils.SmoothCubic | src/main/java/jkbstudio/svg/SvgUtils.java:127-144 | one S group equals `SmoothCubicStep` |
| LegacySvgUtils.SmoothQuad | src/main/java/jkbstudio/svg/SvgUtils.java:158-173 | one T group equals `SmoothQuadStep` |
| LegacySvgUtils.Arc | src/main/java/jkbstudio/svg/SvgUtils.java:175-192 | one A group equals `ArcStep` |
| LegacySvgUtilsProperties.GroupStepDrawsOne | src/main/java/jkbstudio/svg/SvgUtils.java:88-173 | one group of L, C, S, Q or T draws one segment of its kind; only S touches lastControlPoint and only T touches lastQuadControlPoint |
| LegacySvgUtilsProperties.GroupsDrawOnePerGroup | src/main/java/jkbstudio/svg/SvgUtils.java:88-173 | one segment per complete group, a short tail ignored, the earlier path kept as a prefix |
| LegacySvgUtilsProperties.GroupsNeedMoveTo | src/main/java/jkbstudio/svg/SvgUtils.java:88-156 | before any moveTo, the first complete L, C or Q group throws |
| LegacySvgUtilsProperties.CubicGroup | src/main/java/jkbstudio/svg/SvgUtils.java:113-125 | C draws a cubic through its three points, each offset for a relative command, and moves to the last point |
| LegacySvgUtilsProperties.QuadGroup | src/main/java/jkbstudio/svg/SvgUtils.java:146-156 | Q draws a quadratic through its two points and moves to the second |
| LegacySvgUtilsProperties.SmoothCubicReflects | src/main/java/jkbstudio/svg/SvgUtils.java:127-144 | S reflects lastControlPoint through the current point and stores (x2, y2); it throws while the control point is null |
| LegacySvgUtilsProperties.SmoothQuadReflects | src/main/java/jkbstudio/svg/SvgUtils.java:158-173 | T reflects lastQuadControlPoint and stores the reflection; it throws while the control point is null |
| LegacySvgUtilsProperties.ArcGroup | src/main/java/jkbstudio/svg/SvgUtils.java:175-192 | A appends the arc with absolute radii and flags read as "non-zero", then moves to the endpoint |
| LegacySvgUtilsProperties.ParsePathWellFormed | src/main/java/jkbstudio/svg/SvgUtils.java:56-200 | every path the older reader returns obeys Path2D's shape rules |
| PathFixture.Lerp | src/main/java/studio/jkb/svg/PathFixture.java:665-666 | amount 0 gives the start and amount 1 gives the end |
| PathFixture.CoordLerp | src/main/java/studio/jkb/svg/PathFixture.java:662-668 | a new coordinate at the start for 0 and at the other for 1 |
| PathFixture.Constrain | src/main/java/studio/jkb/svg/PathFixture.java:370-384 | the result lies in [lo, hi]: the value itself inside, the nearest bound outside |
| PathFixture.ActiveLength | src/main/java/studio/jkb/svg/PathFixture.java:336-338 | never negative; equal to length − padStart − padEnd whenever that is not negative |
| PathFixture.DensitySpacing | src/main/java/studio/jkb/svg/PathFixture.java:310 | the reciprocal of a positive density, otherwise 0 |
| PathFixture.IntCast | src/main/java/studio/jkb/svg/PathFixture.java:327 | Java's `(int)` of a non-negative double: truncation, saturating at Integer.MAX_VALUE |
| PathFixture.SizeForSpacingIsFloor | src/main/java/studio/jkb/svg/PathFixture.java:324-331 | the size is floor(active length / spacing), and 0 without a positive spacing |
| PathFixture.ModelSpacingPositive | src/main/java/studio/jkb/svg/PathFixture.java:305-319 | with the declared parameter ranges, the model spacing is positive in both modes |
| PathFixture.EmptyPathHasNoSpacingPoints | src/main/java/studio/jkb/svg/PathFixture.java:324-338 | a path of length 0 holds no point in Spacing or Density mode |
| PathFixture.Vertices | src/main/java/studio/jkb/svg/PathFixture.java:244-265 | only moveTo and lineTo segments are kept |
| PathFixture.FlattenIsOnePerVertex | src/main/java/studio/jkb/svg/PathFixture.java:240-265 | one coordinate per moveTo or lineTo, at its end point converted to model units; curves and closes add none |
| PathFixture.Measured | src/main/java/studio/jkb/svg/PathFixture.java:270-300 | measuring keeps the number and the positions of the coordinates |
| PathFixture.Accumulate | src/main/java/studio/jkb/svg/PathFixture.java:277-287 | the first loop yields the running distances and the total length |
| PathFixture.Normalise | src/main/java/studio/jkb/svg/PathFixture.java:289-299 | the second loop gives n = distOverall / length, or 0 everywhere when the length is 0 |
| PathFixture.NormalisedRange | src/main/java/studio/jkb/svg/PathFixture.java:290-299 | a distance between 0 and the length maps into [0, 1]; 0 maps to 0 and the length maps to 1 |
| PathFixture.MeasuredFirst | src/main/java/studio/jkb/svg/PathFixture.java:277-279 | the first coordinate has distPrev = distOverall = n = 0 |
| PathFixture.TalliedSumOfDistPrev | src/main/java/studio/jkb/svg/PathFixture.java:280-287 | after the first loop, the length is the sum of all distPrev |
| PathFixture.LengthIsSumOfDistPrev | src/main/java/studio/jkb/svg/PathFixture.java:270-300 | after measuring, coordsLength equals the sum of all distPrev |
| PathFixture.PathLengthOfPositions | src/main/java/studio/jkb/svg/PathFixture.java:656-660 | the length depends only on the positions |
| PathFixture.PathLengthMonotone | src/main/java/studio/jkb/svg/PathFixture.java:280-287 | longer prefixes are never shorter |
| PathFixture.PathLengthNonNegative | src/main/java/studio/jkb/svg/PathFixture.java:280-287 | the length is never negative |
| PathFixture.DistOverallMonotone | src/main/java/studio/jkb/svg/PathFixture.java:280-287 | distOverall never decreases along the list, and the last one is the whole length |
| PathFixture.NormalInUnit | src/main/java/studio/jkb/svg/PathFixture.java:289-299 | every n lies in [0, 1] |
| PathFixture.NormalAtInUnit | src/main/java/studio/jkb/svg/PathFixture.java:292 | one coordinate's n lies in [0, 1] |
| PathFixture.NormalEnds | src/main/java/studio/jkb/svg/PathFixture.java:289-299 | the last n is 1 on a path of positive length, and every n is 0 on a path of length 0 |
| PathFixture.Target | src/main/java/studio/jkb/svg/PathFixture.java:384 | each point's target lies in [0, 1] |
| PathFixture.TargetMonotone | src/main/java/studio/jkb/svg/PathFixture.java:384 | with a non-negative spacing, the targets never decrease |
| PathFixture.BetweenFraction | src/main/java/studio/jkb/svg/PathFixture.java:417-419 | a target strictly between two n gives a fraction in (0, 1) that interpolates back to the target |
| PathFixture.Seek | src/main/java/studio/jkb/svg/PathFixture.java:385-425 | the inner loop never goes back and stops at a coordinate not beyond the target |
| PathFixture.SeekStops | src/main/java/studio/jkb/svg/PathFixture.java:385-425 | the loop passes only coordinates before the target, and places the point on a coordinate at the target, on the last coordinate, or just after the stop |
| PathFixture.SeekLands | src/main/java/studio/jkb/svg/PathFixture.java:403-424 | an interpolated point lies strictly between its neighbours at the source's fraction; the point lands on its target unless every coordinate lies before it |
| PathFixture.Walk | src/main/java/studio/jkb/svg/PathFixture.java:377-426 | one placement per point, each on the path |
| PathFixture.WalkLands | src/main/java/studio/jkb/svg/PathFixture.java:380-426 | each point whose target is not beyond the last coordinate lands on that target |
| PathFixture.PointsOnPath | src/main/java/studio/jkb/svg/PathFixture.java:366-427 | `count` placements, each on the path |
| PathFixture.WalkHitsTargets | src/main/java/studio/jkb/svg/PathFixture.java:395-402 | on measured coordinates the "ran off the end" branch never places a point, so every point lands on its target |
| PathFixture.SeekPosition | src/main/java/studio/jkb/svg/PathFixture.java:385-425 | the inner while loop stops and places the point as `Seek` says |
| PathFixture.WalkStep | src/main/java/studio/jkb/svg/PathFixture.java:380-426 | the walk is one placement followed by the walk from where it stopped |
| PathFixture.WalkPoints | src/main/java/studio/jkb/svg/PathFixture.java:377-426 | the outer for loop places point k at placement k of `Walk` |
| PathFixture.PlaceAlong | src/main/java/studio/jkb/svg/PathFixture.java:370-426 | the padding and spacing are scaled by the length, then point k goes to placement k of `PointsOnPath` |
| PathFixture.WalkSpacing | src/main/java/studio/jkb/svg/PathFixture.java:342-352 | the spacing used outside DIRECT mode is never negative |
| PathFixture.DirectPoints | src/main/java/studio/jkb/svg/PathFixture.java:353-362 | one point per coordinate, at its position |
| PathFixture.CopyPositions | src/main/java/studio/jkb/svg/PathFixture.java:355-361 | the DIRECT loop yields `DirectPoints` |
| PathFixture.LastIndexOf | src/main/java/studio/jkb/svg/PathFixture.java:595 | the last index of the character, or -1 |
| PathFixture.RemoveExtension | src/main/java/studio/jkb/svg/PathFixture.java:594-600 | cuts the name at its last dot when that dot is past index 0; otherwise returns the name unchanged; the result is always a prefix |
| PathFixture.PathFixture.constructor | src/main/java/studio/jkb/svg/PathFixture.java:172-194 | default parameters, no path, no coordinates, and the invariant holds |
| PathFixture.PathFixture.CalcCoordsLength | src/main/java/studio/jkb/svg/PathFixture.java:270-300 | the coordinates become `Measured` and coordsLength becomes the path length; nothing else changes |
| PathFixture.PathFixture.RebuildCoordinates | src/main/java/studio/jkb/svg/PathFixture.java:236-268 | with a path, the coordinates are the measured flattening; with none it fails (the null-pointer exception) after clearing them |
| PathFixture.PathFixture.RefreshSizeForSpacing | src/main/java/studio/jkb/svg/PathFixture.java:324-331 | stores `SizeForSpacing` for the current parameters and length, and changes nothing else |
| PathFixture.PathFixture.SetPathData | src/main/java/studio/jkb/svg/PathFixture.java:211-216 | keeps the text; on a parse exception only the text changes; otherwise the path, coordinates and size are rebuilt, keeping the invariant |
| PathFixture.PathFixture.SetParameter | src/main/java/studio/jkb/svg/PathFixture.java:218-231 | applies the change and keeps the invariant (coordinates and size match the parameters); a change of units with no path fails |
| PathFixture.PathFixture.Count | src/main/java/studio/jkb/svg/PathFixture.java:429-442 | numPoints in NumPoints mode, the spacing size in Spacing and Density modes, and the coordinate count in DIRECT mode |
| PathFixture.PathFixture.ComputePointsOnPath | src/main/java/studio/jkb/svg/PathFixture.java:366-427 | no point without coordinates; otherwise `count` points at the placements of `PointsOnPath` |
| PathFixture.PathFixture.ComputePointGeometry | src/main/java/studio/jkb/svg/PathFixture.java:341-364 | DIRECT mode copies the coordinates; other modes walk `size()` points with the mode's spacing |
| ChildList.WithoutMissing | src/main/java/studio/jkb/parameter/SumParameter.java:45-51 | removing an absent child leaves the list unchanged |
| ChildList.WithoutPresent | src/main/java/studio/jkb/parameter/SumParameter.java:45-49 | removing a present child removes exactly that child, and the list stays free of duplicates |
| ChildList.WithoutAppended | src/main/java/studio/jkb/parameter/SumParameter.java:31-49 | adding a new child and then removing it restores the list |
| SumParameter.SumOfConcat | src/main/java/studio/jkb/parameter/SumParameter.java:65-71 | the sum of a concatenation is the sum of the parts |
| SumParameter.SumOfWithout | src/main/java/studio/jkb/parameter/SumParameter.java:45-71 | removing a present child takes its value off the sum |
| SumParameter.AddThenRemove | src/main/java/studio/jkb/parameter/SumParameter.java:31-52 | add then remove restores the list, and adding raises the sum by the child's value |
| SumParameter.ComputeGroup | src/main/java/studio/jkb/parameter/SumParameter.java:65-71 | the loop yields the sum of the children's values |
| SumParameter.SumParameter.constructor | src/main/java/studio/jkb/parameter/SumParameter.java:18-23 | no children, value 0 |
| SumParameter.SumParameter.Refresh | src/main/java/studio/jkb/parameter/SumParameter.java:58-60 | the value becomes the sum of the children |
| SumParameter.SumParameter.ChildChanged | src/main/java/studio/jkb/parameter/SumParameter.java:54-56 | after a child changes, the value is again the sum |
| SumParameter.SumParameter.HasChild | src/main/java/studio/jkb/parameter/SumParameter.java:41-43 | true exactly when the child is in the list |
| SumParameter.SumParameter.AddChild | src/main/java/studio/jkb/parameter/SumParameter.java:31-39 | fails exactly for a child already present, changing nothing; otherwise appends it, keeps the list free of duplicates, and the value becomes the old sum plus the child's value |
| SumParameter.SumParameter.RemoveChild | src/main/java/studio/jkb/parameter/SumParameter.java:45-52 | true exactly when the child was present; then it leaves the list and the value drops by its value; otherwise nothing changes |
| SumParameter.SumParameter.Dispose | src/main/java/studio/jkb/parameter/SumParameter.java:78-84 | all children are removed; the value is 0 when there was a child to remove, and unchanged otherwise |
| SyncParameter.SyncParameter.constructor | src/main/java/jkbstudio/parameter/SyncParameter.java:20-41 | enabled, no children, outside a push |
| SyncParameter.SyncParameter.AddChild | src/main/java/jkbstudio/parameter/SyncParameter.java:43-53 | fails exactly for a child already present; otherwise appends it and, when enabled, gives it the lead's normalised value without turning sync off |
| SyncParameter.SyncParameter.RemoveChild | src/main/java/jkbstudio/parameter/SyncParameter.java:55-61 | true exactly when the child was present, which then leaves the list; the flags are untouched |
| SyncParameter.SyncParameter.PushToChildren | src/main/java/jkbstudio/parameter/SyncParameter.java:83-88 | every child takes the lead's normalised value; their listeners see isUs and change nothing |
| SyncParameter.SyncParameter.ChildChanged | src/main/java/jkbstudio/parameter/SyncParameter.java:90-97 | a change from outside a push turns enabled off; one during a push changes nothing; isUs is restored |
| SyncParameter.SyncParameter.EnabledChanged | src/main/java/jkbstudio/parameter/SyncParameter.java:65-72 | when switched on outside a push, every child takes the lead's value; isUs is restored |
| SyncParameter.SyncParameter.InternalChanged | src/main/java/jkbstudio/parameter/SyncParameter.java:74-81 | a lead change while enabled, outside a push, reaches every child; isUs is restored |
| SyncParameter.SyncParameter.SetLead | src/main/java/jkbstudio/parameter/SyncParameter.java:74-88 | after a user sets the lead, every child holds it while sync is on, and sync stays on |
| SyncParameter.SyncParameter.SetChild | src/main/java/jkbstudio/parameter/SyncParameter.java:90-97 | after a user sets a child, sync is off and no other child changed |
| SyncParameter.SyncParameter.SetEnabled | src/main/java/jkbstudio/parameter/SyncParameter.java:65-72 | turning sync on gives every child the lead's value; turning it off changes no child |
| SyncParameter.SyncParameter.Dispose | src/main/java/jkbstudio/parameter/SyncParameter.java:99-104 | every child is removed, from the last to the first |

## Left out

- `loadSVGpaths` in both SvgUtils files: XML parsing and file I/O.
- `exportTo`, `exportToDefault`, `save`, `load` and `addModelMetaData` of PathFixture.java: JSON serialisation and file writing.
- `Double.parseDouble`: passed in as `parse`. Java's number syntax is not modelled.
- `Math.sqrt` in `Coordinate.dist`: passed in as `norm`. Only `norm >= 0` is assumed.
- The sine, cosine, tangent, atan2 and square roots of `addArcToPath`: they come in a `MathLib` record. `CenterParameters` and `BezierControls` write out the arithmetic over that record.
- Floating point: doubles are reals, so rounding is not modelled. That includes the "slips above 1" rounding that the clamp in `_computePointsOnPath` guards against.
- The `float` copies `xf`/`yf` of a coordinate, and the `LXMatrix` translate/set calls: a point is placed at the coordinate's `(x, y)` in model units.
- `LXUtils.lerp`, `LXUtils.constrain` and `LXUtils.max` are written out from their usual definitions; their source is not part of this model.
- Listener registration in LX (`addListener`/`removeListener`, and firing only when a value actually changes): each listener is an explicit method call made right after the change it listens to.
- `super.dispose()`, `setDescription`, and the removal of the lead and `enabled` listeners in `SyncParameter.dispose`: bookkeeping of the LX host.
- SyncParameter.NormalizedParameter: a child takes the normalised value exactly. A discrete child's rounding in `setNormalized` is not modelled.
- `reversePath`: the parameter is kept, but the source never reads it when placing points.
- `size.setValue` in `regenerateOutputs`, and the LX fixture machinery that calls `size()` and `computePointGeometry`: the model calls them directly, and the number of points asked for is `size()`.
- `PathFixture.PathFixture.ComputePointsOnPath`: each point is given as a position in a new list. The source updates the LXPoints it is given in place.
- Unicode: `Character.isLowerCase`/`toUpperCase` are modelled only for the ASCII letters the parser acts on.
- `String.split` and `String.trim` are written out for the two fixed patterns the parsers use. General regular expressions are not modelled.
- Warnings logged by a parse that ends in an exception are lost in the source. The model returns only the error then (in the older reader, the error and the warnings so far, with the static fields).
- `PathFixture.PathFixture.SetParameter`: requires the new value to lie in the parameter's declared range, because LX clamps every value into that range before the fixture sees it.
