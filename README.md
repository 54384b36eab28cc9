# cosy core in Dafny

A verified model of the core of **cosy**, a Python toolkit that prepares electron-optics
simulations for the COSY INFINITY code. It covers four parts of the repository:

- `lens.dfy` (module `Lens`) models the electrode-geometry builder `Lens` of `src/cosy/lens.py`.
  A lens is drawn as a sequence of straight lines and circular arcs. Each drawn piece appends one
  electrode row to `coefE` and a matching ring row to `coefR`; the ring row is offset from the
  electrode by the electrode–ring spacing. The operations are `start`, `line`, `vertical`,
  `horizontal`, the corner correction between two consecutive lines, `arc`, `count_pieces`,
  `mirror`, `mirror_voltage_group` and `check`. The class keeps the source's fields. Each method
  is proved against a pure step function on a `Snapshot` of those fields, and the properties are
  proved about the step functions. The invariant `Inv` is kept by every operation: the two tables
  stay paired row by row (same point count and piece type, ring voltage 0). The model also
  records which table positions hold one Python list object (`rowIds`). `mirror` deep-copies its
  selection, so a row selected twice becomes one copy that is mirrored once per occurrence and
  appended twice; a later write to such a row shows at every position that holds it.
- `utils.dfy` (module `Utils`) models `edit_lines`, the rule-driven rewriting of COSY template
  lines, and `process_file`, which tags a file name with a process id.
- `objective.dfy` (module `Objective`) models the `ObjectiveFunction` record with its operators,
  and every builder of COSY objective procedures in `src/cosy/objective.py`. It also defines when
  COSY code is balanced: every `If`, `Loop` and `Function` is closed by its own `EndIf`, `EndLoop`
  or `EndFunction`, innermost first. It proves that every builder emits a balanced procedure, and
  states each procedure's layout: which `If`, `ElseIf` and `Loop` lines it has, and which term
  each adding line adds. The If-based procedures consist only of lines that add a term to the
  procedure's own variable and the lines of their `If` statements. The clear-aperture procedure
  also declares and initialises variables and traces rays in two nested loops.
- `optimizer.dfy` (module `Optimizer`) models three parts of `SpeemOptimizer` in
  `src/cosy/optimizer.py`: the choice of the map procedure, the normalisation done by the
  `objectives` setter, and the fixed-width splitting of an aberration listing.

`text.dfy` holds Python's `startswith`, `endswith` and substring `in` on strings, and
`wrappers.dfy` holds `Option`, which stands for Python's `None`-or-value.

Modelling conventions:

- A Python exception becomes a `Status` value (`Lens`) or `None` (`Objective.Add`,
  `Utils.ProcessFile`). The model keeps exactly the state the source leaves behind. If `mirror`
  meets a piece of unknown type, the mirrored rows appended before it stay. A failing `check`
  has still added the ring points to `nTotal`.
- Python floats are exact `real`s. The trigonometric functions, `degrees`, `radians`, `round` and
  `sqrt` are function values held in a `Numerics` record. Only `sqrt` is constrained: it returns
  the non-negative square root.
- Numbers that the objective builders print into COSY code arrive already formatted, as strings.

Where the lens documentation and the code disagree, the model follows the code:

- An arc whose end direction equals its start direction has span 0. It is drawn clockwise with
  0 points; the code does not reject it.
- No separate check rejects spans of 360° or more. The shorter-arc rule keeps every span at or
  below 180°, and `ArcSense` proves that bound.
- `check` adds the ring point counts to `nTotal` on every call. On a lens with points, a second
  `check` therefore always fails (`CheckPassesIffFresh`).
- Mirroring twice restores the original pieces only for arc angles in (-180°, 180°] that do not
  straddle the ±180° seam. `MirrorArcStraddlingNotRestored` exhibits an arc that is not restored.
- The default procedure name of `maxed_angle_resolved_objective_function` is the minned builder's
  (`src/cosy/objective.py:134`). In the model the name is always a parameter.

## Model

| member | source | states |
|---|---|---|
| Lens.Lens.constructor | src/cosy/lens.py:53-72 | the spacing fields are stored; `er_spacing` defaults to `point_spacing`; the lens starts with empty tables, voltage -1, no direction and `nTotal` 0 |
| Lens.StartStep | src/cosy/lens.py:74-83 | `start` moves the cursor, forgets the direction and sets the voltage to the given group or to the previous voltage plus one; the tables are untouched and the invariant is kept |
| Lens.Lens.Start | src/cosy/lens.py:74-83 | the new state is `StartStep` of the old one |
| Lens.Ceil | src/cosy/lens.py:89 | `ceil`: the least integer not below its argument |
| Lens.PointCount | src/cosy/lens.py:89 | a piece of positive length gets at least one point |
| Lens.HypotPositive | src/cosy/lens.py:88 | the length of a non-degenerate segment is positive and squares to dz² + dr² |
| Lens.LineLengthPositive | src/cosy/lens.py:86-88 | a line that goes somewhere has positive length |
| Lens.ZShift | src/cosy/lens.py:151-157 | both ring z ends are shifted by the same amount |
| Lens.RShift | src/cosy/lens.py:159-165 | both ring r ends are shifted by the same amount |
| Lens.RingLineIsPerpendicularOffset | src/cosy/lens.py:151-165 | the ring line is the electrode line moved by one vector, perpendicular to the line and equal to `er_spacing` times the unit normal; it has voltage 0 and the electrode's points and type |
| Lens.EndExtended | src/cosy/lens.py:174-176 | the corner correction moves only the end point of the previous ring piece |
| Lens.StartRetracted | src/cosy/lens.py:178-180 | the corner correction moves only the start point of the current ring piece |
| Lens.CornerCorrected | src/cosy/lens.py:167-182 | the ring table keeps its length; the details are stated by `CornerCorrectedMoves` |
| Lens.CornerCorrectedMoves | src/cosy/lens.py:174-180 | the end of the second-to-last ring row moves by the miter along the previous direction at every position holding that row object; the last row, an object of its own, has its start moved back along the current direction; every other position is unchanged |
| Lens.CornerKeepsPairing | src/cosy/lens.py:174-180 | corner correction moves only end points, so every ring row keeps the point count and type of its electrode row and stays grounded, and all rows before the last two are untouched |
| Lens.Lens.CornerCorrection | src/cosy/lens.py:167-182 | the ring table and the direction become those of `CornerStep`: the write to `coefR[-2]` shows at every position holding that row object, and the direction becomes the current segment's |
| Lens.CornerStep | src/cosy/lens.py:167-182 | the corrected state keeps the ring table's length and stores a direction |
| Lens.LineStep | src/cosy/lens.py:85-135 | a zero-length line fails and changes nothing; otherwise exactly one electrode row and one new row object are appended, every earlier ring row not sharing the object of the previous last row is kept, the cursor moves to the end point, a direction is stored, and the invariant is kept |
| Lens.LineStepAppends | src/cosy/lens.py:85-135 | the appended electrode row is the segment itself with at least one point; after another line the end of the previous ring row is moved at every position holding that object, the new ring row's start is moved, and the direction becomes the new line's; otherwise the ring row is appended unchanged |
| Lens.LineStepCorner | src/cosy/lens.py:123-124 | a line right after a line: the previous ring row object's end moves wherever it is held, the new ring row's start moves, all other rows are kept, and the new direction is stored |
| Lens.CornerAfterAppend | src/cosy/lens.py:174-180 | corner correction right after appending a new row object moves the previous row's end wherever that object is held, the new row's start, and nothing else |
| Lens.LineStepDraws | src/cosy/lens.py:85-135 | the state after a line, field by field: electrode row appended, ring table appended and corner-corrected exactly when the previous piece was a line, direction kept unless absent or corner-corrected |
| Lens.LineDrawnKeeps | src/cosy/lens.py:85-135 | a line that goes somewhere keeps the invariant, keeps the old electrode rows as a prefix, and keeps every ring row not sharing the corrected object |
| Lens.LineAppended | src/cosy/lens.py:94-121 | the two appends add one ring row, keep the old ring rows as a prefix, and name the new row object by its own position |
| Lens.LineAppendedFresh | src/cosy/lens.py:94-121 | the appended ring row is an object no earlier position holds, as corner correction needs |
| Lens.LineFinished | src/cosy/lens.py:126-133 | after a line a direction is always stored and the previous piece is a line |
| Lens.LineStepStages | src/cosy/lens.py:85-135 | `line` is its stages run in the source's order: append, corner-correct after a line, then store the direction and move the cursor |
| Lens.IdentitiesFresh | src/cosy/lens.py:94-121 | a newly created row pair is an object of its own and keeps the identity invariant |
| Lens.Lens.Line | src/cosy/lens.py:85-135 | the new state and status are those of `LineStep` |
| Lens.Lens.AppendLineRows | src/cosy/lens.py:94-121 | the state becomes `LineAppended` of the old one |
| Lens.Lens.FinishLine | src/cosy/lens.py:126-133 | the state becomes `LineFinished` of the old one |
| Lens.VerticalStep | src/cosy/lens.py:137-142 | fails exactly when the end r equals the start r; otherwise draws a line at constant z |
| Lens.Lens.Vertical | src/cosy/lens.py:137-142 | the new state and status are those of `VerticalStep` |
| Lens.HorizontalStep | src/cosy/lens.py:144-149 | fails exactly when the end z equals the start z; otherwise draws a line at constant r |
| Lens.Lens.Horizontal | src/cosy/lens.py:144-149 | the new state and status are those of `HorizontalStep` |
| Lens.ArcSense | src/cosy/lens.py:194-209 | the ±180° snap changes only a boundary angle's sign, so both ends share a sign; the two distances add to 360; the arc is clockwise exactly when the clockwise distance is strictly shorter; the span is the shorter distance and at most 180° |
| Lens.ArcStep | src/cosy/lens.py:184-264 | an arc without a stored direction fails and changes nothing; otherwise one electrode row and one ring row are appended with the same centre, angles and point count, the angles offset by ±90° by rotation sense, and the ring radius is the electrode radius plus the spacing when clockwise and minus it otherwise; the end direction is stored |
| Lens.ArcRightAfterStartFails | src/cosy/lens.py:185-191 | an arc drawn right after `start` always fails and leaves the state unchanged |
| Lens.Lens.Arc | src/cosy/lens.py:184-264 | the new state and status are those of `ArcStep` |
| Lens.DictSet | src/cosy/lens.py:275 | setting a dictionary key gives that key the value, keeps every other key, and changes the value sum accordingly |
| Lens.CountPiecesStep | src/cosy/lens.py:266-277 | only `n_pieces` changes; the named electrode counts the ring rows not yet attributed to earlier names |
| Lens.CountPiecesTotal | src/cosy/lens.py:273-275 | after counting a new name, the counts add up to the number of ring rows |
| Lens.Lens.CountPieces | src/cosy/lens.py:266-277 | the new state is `CountPiecesStep` of the old one |
| Lens.MirrorCoord | src/cosy/lens.py:314-316 | the mirrored coordinate is as far beyond the mirror point as the original is before it |
| Lens.MirrorCoordInvolution | src/cosy/lens.py:314-316 | mirroring a coordinate twice restores it |
| Lens.MirrorAngle | src/cosy/lens.py:318-322 | the mirrored angle is supplementary (sum ±180°) and stays in (-180°, 180°] |
| Lens.MirrorAngleInvolution | src/cosy/lens.py:318-322 | mirroring an angle twice restores it exactly when it lies in (-180°, 180°] |
| Lens.MirrorLine | src/cosy/lens.py:324-330 | only the two z coordinates change, each mirrored |
| Lens.MirrorArc | src/cosy/lens.py:332-348 | only the two angles and the centre z change; the centre is mirrored; each angle is the mirrored angle up to the sign of ±180°, and after the seam fix no arc runs from 180° to a negative angle or from a negative angle to 180° |
| Lens.MirrorArcInvolution | src/cosy/lens.py:332-348 | for angles in (-180°, 180°] that do not straddle the seam, mirroring an arc twice restores it |
| Lens.MirrorArcStraddlingNotRestored | src/cosy/lens.py:337-341 | an arc from 180° to a negative angle comes back starting at -180° |
| Lens.MirrorPair | src/cosy/lens.py:286-301 | the mirrored electrode gets the given voltage group or its own voltage negated; points, type and the ring voltage are kept |
| Lens.MirrorAppend | src/cosy/lens.py:285-304 | the tables receive at most one row per selected position, equally many electrode and ring rows, and the loop succeeds exactly when it got through the whole selection; the rows themselves are stated by `MirrorAppendRepeats` |
| Lens.MirrorRows | src/cosy/lens.py:285-304 | the loop over the deep copies, writing each mirrored copy in place at every position holding it, computes exactly `MirrorAppend` |
| Lens.Written | src/cosy/lens.py:297-301 | an in-place write to a row object shows at exactly the positions that hold it |
| Lens.MirrorCopies | src/cosy/lens.py:285-304 | the loop leaves as many copies as it started with and stops at an iteration no earlier than where it started |
| Lens.MirroredTimes | src/cosy/lens.py:286-301 | repeated passes of the loop body keep the point counts and types and the ring voltage |
| Lens.MirrorCopiesStep | src/cosy/lens.py:285-304 | one iteration mirrors its copy once more at every position holding it, keeping the invariant that each copy has been mirrored once per earlier occurrence |
| Lens.MirrorCopiesRepeats | src/cosy/lens.py:285-304 | when the loop stops, each copy has been mirrored once for every completed iteration that holds it |
| Lens.MirrorCopiesStops | src/cosy/lens.py:287-294 | the loop completes exactly the iterations over rows of known type up to the first row of unknown type |
| Lens.MirrorAppendRepeats | src/cosy/lens.py:282-304 | success exactly when every selected type is known; the loop stops at the first unknown type; each appended row is its selected pair mirrored once per completed iteration holding the same copy |
| Lens.MirrorAppendOnce | src/cosy/lens.py:282-304 | without a repeated row object in the selection, every appended pair is the selected pair mirrored exactly once |
| Lens.MirrorAppendAlike | src/cosy/lens.py:282-304 | positions appended for one copy hold equal rows |
| Lens.MirrorAppendPaired | src/cosy/lens.py:282-304 | the appended rows are paired and positions appended for one copy hold equal rows |
| Lens.SelectedAlike | src/cosy/lens.py:282-283 | selected positions that hold one row object hold equal rows |
| Lens.CopyIds | src/cosy/lens.py:282-283 | one id per appended copy |
| Lens.CopyIdsPattern | src/cosy/lens.py:282-283 | two appended positions get one id exactly when they hold the same deep copy |
| Lens.IdentitiesCopies | src/cosy/lens.py:303-304 | appending the copies under those ids keeps the identity invariant |
| Lens.MirrorAppendKeeps | src/cosy/lens.py:279-306 | with every index valid, the call completes exactly when every selected type is known, and the tables with the copies appended keep the invariant |
| Lens.MirrorStep | src/cosy/lens.py:279-306 | an index out of range fails and changes nothing; otherwise only the tables and row ids change, the old ones are kept as prefixes, one row per index is added exactly when every selected type is known, and the invariant is kept |
| Lens.MirrorStepAppends | src/cosy/lens.py:282-304 | the tables grow by exactly `MirrorAppend` of the selected rows and objects, the appended positions share ids as the copies share objects, and success is `MirrorAppend`'s |
| Lens.MirrorPairInvolution | src/cosy/lens.py:286-301 | with the default voltage negation, mirroring a pair twice restores it |
| Lens.MirrorAppendInvolution | src/cosy/lens.py:285-304 | mirroring the appended copies again, grouped as the first copies were, gives the selection back, also when it repeats a row object |
| Lens.MirroredTimesAdd | src/cosy/lens.py:285-304 | a passes of the loop body followed by b more are a + b passes |
| Lens.MirroredEvenRestores | src/cosy/lens.py:286-301 | an even number of default passes gives a restorable pair back |
| Lens.MirroredTwiceRestores | src/cosy/lens.py:286-301 | c default passes followed by c more give a restorable pair back |
| Lens.AlikeRegrouped | src/cosy/lens.py:282-283 | rows alike under one grouping of positions are alike under any grouping with the same pattern |
| Lens.MirrorTwiceRestores | src/cosy/lens.py:279-306 | mirroring pieces with default voltages, then mirroring the appended copies the same way, succeeds twice and appends the original rows again, also when the selection repeats a row |
| Lens.MirrorFirstPass | src/cosy/lens.py:279-306 | the first call succeeds and appends a block whose second mirroring gives the selection back |
| Lens.MirrorSecondPass | src/cosy/lens.py:279-306 | mirroring the block appended last appends what mirroring that block produces |
| Lens.MirrorSameRowTwice | src/cosy/lens.py:282-304 | selecting one restorable row twice with default voltages appends it twice unchanged, both positions holding one new copy, because that copy is mirrored twice |
| Lens.SelectedAppended | src/cosy/lens.py:282-283 | selecting the appended positions of a table gives back the appended rows |
| Lens.Lens.Mirror | src/cosy/lens.py:279-306 | the new state and status are those of `MirrorStep`, row ids included |
| Lens.GroupIndices | src/cosy/lens.py:309 | the indices of exactly the rows with the current voltage, increasing |
| Lens.MirrorGroupStep | src/cosy/lens.py:308-312 | mirroring the current voltage group never meets a bad index and keeps the invariant |
| Lens.Lens.MirrorVoltageGroup | src/cosy/lens.py:308-312 | the new state and status are those of `MirrorGroupStep` |
| Lens.TotalPoints | src/cosy/lens.py:351-356 | the counting loop computes the sum of the point counts |
| Lens.SumPointsLockstep | src/cosy/lens.py:351-356 | tables with the same point counts row by row have the same total |
| Lens.CheckStep | src/cosy/lens.py:350-361 | `nTotal` grows by the ring points and nothing else changes; the check passes exactly when the electrode points equal the new `nTotal` |
| Lens.CheckPassesIffFresh | src/cosy/lens.py:350-361 | the tables always hold equally many points, so `check` passes exactly when `nTotal` was 0, and on a lens with points a second `check` fails |
| Lens.Lens.Check | src/cosy/lens.py:350-361 | the new state and status are those of `CheckStep` |
| Utils.Emitted | src/cosy/utils.py:43-49 | a list replacement emits one line per element, a string one line, `None` no line; every emitted line ends in `;\n` |
| Utils.Matched | src/cosy/utils.py:40-49 | the lines emitted for one template line all end in `;\n` |
| Utils.ReplacedIff | src/cosy/utils.py:39-42 | a line is replaced exactly when some rule's identifier occurs in it |
| Utils.MatchedStep | src/cosy/utils.py:40-49 | each further rule adds its emitted lines when its identifier occurs, and sets the replaced flag |
| Utils.EmittedStep | src/cosy/utils.py:44-45 | each element of a list replacement emits itself followed by `;\n` |
| Utils.RewriteLine | src/cosy/utils.py:39-51 | the loop over the rules produces exactly the edit of one line |
| Utils.EditLines | src/cosy/utils.py:15-52 | the loop over the template lines produces exactly the edited lines |
| Utils.EditedLinesConcat | src/cosy/utils.py:37-52 | editing is line by line: editing a concatenation concatenates the edits |
| Utils.UnmatchedLinesKept | src/cosy/utils.py:50-51 | lines that no identifier occurs in are copied unchanged |
| Utils.NoRulesIsIdentity | src/cosy/utils.py:37-52 | without rules the template comes back unchanged |
| Utils.MatchedConcat | src/cosy/utils.py:40-49 | the rules act in order: more rules append their output after the earlier rules' output |
| Utils.MatchedLineNotCopied | src/cosy/utils.py:41-51 | a matched line is never copied through; only `;\n`-terminated replacements appear |
| Utils.DeletedLineVanishes | src/cosy/utils.py:48-49 | a line matched only by `None` rules disappears |
| Utils.SingleReplacement | src/cosy/utils.py:46-47 | one matching string rule replaces the line by the replacement followed by `;\n` |
| Utils.Split | src/cosy/utils.py:83 | `str.split`: at least one part, no part contains the separator, and one part exactly when the separator is absent |
| Utils.SplitJoin | src/cosy/utils.py:83 | joining the parts with the separator gives the string back |
| Utils.SplitAfterFirst | src/cosy/utils.py:83 | the first part ends at the first separator |
| Utils.NatDigitsRoundTrip | src/cosy/utils.py:84 | the decimal digits of a natural number read back to the number |
| Utils.IntString | src/cosy/utils.py:84 | the printed process id contains no `.` and no `_` |
| Utils.ProcessFile | src/cosy/utils.py:81-84 | the result is missing exactly when the name has no `.`, where Python raises `IndexError` |
| Utils.ProcessFileOneDot | src/cosy/utils.py:81-84 | `stem.ext` becomes `stem_id.ext` |
| Utils.ProcessFileDropsTail | src/cosy/utils.py:81-84 | a name with more dots keeps only its first two parts |
| Utils.ProcessFileSplitsBack | src/cosy/utils.py:81-84 | the tagged name splits at `.` into the tagged stem and the extension |
| Objective.AsJson | src/cosy/objective.py:14-18 | two header lines then the function lines; `FromJson` reads the objective back |
| Objective.Mul | src/cosy/objective.py:21-22 | endpoint and lines are kept; the call is the old call followed by `*value` |
| Objective.RMul | src/cosy/objective.py:24-25 | the same as `Mul` |
| Objective.TrueDiv | src/cosy/objective.py:40-41 | endpoint and lines are kept; the call is the old call followed by `/value` |
| Objective.Add | src/cosy/objective.py:28-37 | defined exactly when the endpoints agree; the call is `(a + b)` of the two calls, and the lines are the left objective's followed by the right one's |
| Objective.AddRegroups | src/cosy/objective.py:28-37 | both groupings of a triple sum exist together and define the same lines |
| Objective.AddKeepsNested | src/cosy/objective.py:28-37 | the sum of balanced objectives is balanced |
| Objective.ScaledSum | src/cosy/objective.py:21-41 | scaling or dividing the left summand, or the whole sum, leaves the sum's lines unchanged |
| Objective.AddToFunction | src/cosy/objective.py:44-45 | the line adds exactly the given term to the variable |
| Objective.CreateFunction | src/cosy/objective.py:48-49 | the procedure name and body are read back from the lines |
| Objective.CreateFunctionNested | src/cosy/objective.py:48-49 | a procedure around a balanced body is balanced |
| Objective.MixedThirdDegreeAberrations | src/cosy/objective.py:52-55 | the line adds the mixed third-order term |
| Objective.FreeAngleResolvedFunction | src/cosy/objective.py:58-64 | the mixed term, then the angle-resolved aberration term |
| Objective.FreeSpatialResolvedFunction | src/cosy/objective.py:67-73 | the mixed term, then the spatially resolved aberration term |
| Objective.AngleResolvedFunction | src/cosy/objective.py:76-79 | the free lines, then the image-size term on `MA(1,2)` |
| Objective.SpatialResolvedFunction | src/cosy/objective.py:82-85 | the free lines, then the image-size term on `MA(1,1)` |
| Objective.AngleResolvedObjectiveFunction | src/cosy/objective.py:88-97 | calls its procedure without arguments, keeps the endpoint, and defines the named procedure, whose body read back is exactly the angle-resolved terms |
| Objective.SpatialResolvedObjectiveFunction | src/cosy/objective.py:100-109 | calls its procedure without arguments, keeps the endpoint, and defines the named procedure, whose body read back is exactly the spatially resolved terms |
| Objective.Branches | src/cosy/objective.py:122-126 | the body is the `If` line, the resolved lines, `ElseIf LO(1)`, the free lines and `EndIf`, in that order |
| Objective.ResolvedObjectivesAccumulate | src/cosy/objective.py:88-109 | both resolved objectives are balanced procedures, and every line of their bodies adds a term to their own variable and opens or closes no block |
| Objective.MinnedAngleResolvedObjectiveFunction | src/cosy/objective.py:112-128 | calls its procedure without arguments and keeps the endpoint; the procedure read back is: `If` the angle image is smaller than half the diameter, the three angle-resolved terms, `ElseIf LO(1)`, the two free terms, `EndIf` |
| Objective.MinnedAngleResolvedAccumulates | src/cosy/objective.py:112-128 | the procedure is balanced and each body line adds a term to the variable or belongs to the `If` statement |
| Objective.MaxedAngleResolvedObjectiveFunction | src/cosy/objective.py:131-147 | calls its procedure without arguments and keeps the endpoint; the procedure read back is: `If` the angle image is larger than half the diameter, the three angle-resolved terms, `ElseIf LO(1)`, the two free terms, `EndIf` |
| Objective.MaxedAngleResolvedAccumulates | src/cosy/objective.py:131-147 | a balanced procedure whose lines only add to the variable or are part of the `If` statement |
| Objective.MinnedMaxedDiffer | src/cosy/objective.py:112-147 | the maxed procedure is the minned one with only the comparison of the `If` line reversed |
| Objective.MinnedSpatialResolvedObjectiveFunction | src/cosy/objective.py:150-166 | calls its procedure without arguments and keeps the endpoint; the procedure read back is: `If` the spatial image is smaller than half the diameter, the three spatially resolved terms, `ElseIf LO(1)`, the two free terms, `EndIf` |
| Objective.MinnedSpatialResolvedAccumulates | src/cosy/objective.py:150-166 | a balanced procedure whose lines only add to the variable or are part of the `If` statement |
| Objective.AngleFilterObjectiveFunction | src/cosy/objective.py:169-192 | calls its procedure without arguments and keeps the endpoint; the procedure read back is two `If` statements each adding one named term, then the mixed term and the fixed angle term |
| Objective.AngleFilterAccumulates | src/cosy/objective.py:169-192 | the procedure is balanced and each body line adds a term to the variable or belongs to an `If` statement |
| Objective.SpatialFilterObjectiveFunction | src/cosy/objective.py:195-220 | calls its procedure without arguments and keeps the endpoint; the procedure read back is an `If` adding one term, an `If` / `ElseIf True` choice between two named terms, then the mixed term and the fixed spatial term |
| Objective.SpatialFilterAccumulates | src/cosy/objective.py:195-220 | the procedure is balanced and each body line adds a term to the variable or belongs to an `If` statement |
| Objective.ClearApertureObjectiveFunction | src/cosy/objective.py:223-250 | calls its procedure without arguments and keeps the endpoint; the procedure read back declares and zeroes its variables, then runs `Loop iter 1 2` around `Loop ii 1 10`, whose body sets up a ray, maps it, and adds its overshoot under `If ABS(ro(1))>(d/2)`, and resets `startingR` between the passes |
| Objective.ClearApertureNested | src/cosy/objective.py:223-250 | the procedure is balanced: its `If` sits inside the inner `Loop`, which sits inside the outer `Loop` |
| Objective.RayLoopNested | src/cosy/objective.py:235-246 | the inner ray loop is balanced |
| Optimizer.MapProcedure | src/cosy/optimizer.py:111-119 | unchanged without objectives; otherwise `ArConversionMap` exactly when the last call contains `Angle`, `SrConversionMap` exactly when it contains `Spatial` but not `Angle`, and `None` otherwise |
| Optimizer.LastObjectiveDecides | src/cosy/optimizer.py:114-119 | only the last objective matters, and the earlier map procedure is forgotten |
| Optimizer.OnlyCallDecides | src/cosy/optimizer.py:114-119 | the endpoint and lines of the objectives play no part |
| Optimizer.ScalingKeepsAngleMap | src/cosy/optimizer.py:114-115 | scaling or dividing an angle-resolved objective keeps the angle-resolved map |
| Optimizer.SumWithAngleSelectsAngleMap | src/cosy/optimizer.py:114-115 | a sum with an angle-resolved summand on either side selects the angle-resolved map |
| Optimizer.AngleNamedSelectsAngleMap | src/cosy/optimizer.py:114-115 | an objective built under a name containing `Angle` selects the angle-resolved map |
| Optimizer.SpatialNamedSelectsSpatialMap | src/cosy/optimizer.py:116-117 | an objective built under a name containing `Spatial` and no `A` selects the spatially resolved map |
| Optimizer.DefaultNamesSelectMaps | src/cosy/optimizer.py:114-117 | the resolved objectives under their default names select the angle- and spatially resolved maps |
| Optimizer.Normalise | src/cosy/optimizer.py:129-132 | `None` becomes the empty list, one objective a one-element list, and a list is kept |
| Optimizer.SettingOneIsSettingAList | src/cosy/optimizer.py:125-135 | setting one objective selects the same map as any list ending with it; setting `None` keeps the earlier map |
| Optimizer.SpeemOptimizer.constructor | src/cosy/optimizer.py:51-71 | the objectives are the normalised argument and the map procedure is chosen starting from `None` |
| Optimizer.SpeemOptimizer.UpdateMapProcedure | src/cosy/optimizer.py:111-119 | the objectives are kept and the map procedure becomes `MapProcedure` of the old one |
| Optimizer.SpeemOptimizer.SetObjectives | src/cosy/optimizer.py:125-135 | the objectives become the normalised argument and the map procedure is updated from them |
| Optimizer.SliceBound | src/cosy/optimizer.py:300-303 | a negative slice bound counts from the end; bounds are clamped into the string |
| Optimizer.PySlice | src/cosy/optimizer.py:300-303 | an in-range slice is the substring; a slice starting past the end is empty; never longer than the string |
| Optimizer.Field | src/cosy/optimizer.py:300-301 | a field has at most 14 characters, exactly the 14 at its position when the line is long enough, and none when the line ends before it |
| Optimizer.AberrationRow | src/cosy/optimizer.py:298-304 | six fields: the five coefficient fields, then the tail without its last character |
| Optimizer.RowReassembles | src/cosy/optimizer.py:298-304 | a full line is its first character, the five fields, one separator, the tail field and the newline, so no other character is lost |
| Optimizer.FormatAberrations | src/cosy/optimizer.py:293-306 | the last line is ignored and every other line becomes its row, in order |

## Left out

- `Lens.print` writes the two tables to files and prints them; it is file I/O and number formatting.
- The `Lens.INSTRUCTIONS` text is documentation only.
- Trigonometry and rounding have no definitions. The arc centre, the arc end point and the direction a line stores are unconstrained values. No numeric value of them is proved.
- Floating-point rounding: every length, shift and angle is an exact real.
- Lens.Lens.constructor: requires `point_spacing > 0`. The source accepts any spacing. With a spacing of zero, the first line drawn divides by zero. With a negative spacing, `ceil(length / point_spacing)` gives point counts of zero or below, which the model does not represent.
- Lens.RingLineIsPerpendicularOffset: states the offset vector times the line length. That the offset's length equals `er_spacing` follows from it but is not stated.
- Lens.MirrorGroupStep: states only that no index is bad and that the invariant holds. The rows it appends are those of `MirrorStep` on `GroupIndices`, and this holds only by definition.
- Lens.MirrorStep: the loop over the deep copies is computed as values and the copies are appended at once. The tables and the sharing of row objects come out as in the source, including after a piece of unknown type. Python object identity is modelled only for the table rows (`rowIds`); the outer `coefE` and `coefR` lists are taken to be held by the lens alone.
- Lens.Lens.constructor: only `point_spacing`, `er_spacing`, `z_offset` and the numeric functions are parameters. The other dataclass fields start at their defaults; the source also lets a caller pass them, including pre-filled `coefE` and `coefR` lists, which the invariant would not admit (rows without ring partners, or shared in ways `rowIds` does not describe). `z_offset` is a constant in the model, but a Python attribute that a caller could reassign between calls.
- Objective.Mul, Objective.RMul, Objective.TrueDiv: the factor arrives as a string. Python's `f"{value}"` formatting of an int or float is not modelled.
- Objective.MinnedAngleResolvedObjectiveFunction, Objective.MaxedAngleResolvedObjectiveFunction, Objective.MinnedSpatialResolvedObjectiveFunction, Objective.AngleFilterObjectiveFunction, Objective.SpatialFilterObjectiveFunction, Objective.ClearApertureObjectiveFunction: the diameter may be an int or float in the source and is printed with Python's formatting; the model takes it already formatted, as a string.
- `create_file_from_template`, `lis_purge` and `LensTable.__str__` are file writing, directory deletion and float formatting.
- Utils.ProcessFile: returns the new file name only. Prefixing it with the repository root directory (`ROOT_DIR`) is a path join, left out; `ROOT_DIR` is not defined in the repository. The input is the file's name (`Path.name`), not a path.
- `StandardObjectiveFunction` only instantiates the builders with fixed endpoint and diameter names.
- Objective.Add: the `isinstance` assertion cannot fail on typed values, so only the endpoint check is modelled.
- Everything else in `optimizer.py` is left out: `_update_template` and the `template_lines` regenerated by the setter, the COSY subprocess runs, the BADS and scipy optimizers, the process pool, timing, records and messaging. These are I/O, concurrency and foreign libraries.
