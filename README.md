# PCB stackup visualisation, modelled in Dafny

This project models the computational core of a KiCad plugin that draws a
printed-circuit-board stackup in two ways: as a table, and as a graphical
cross-section with leader lines and callouts.

The plugin reads the board's stackup: an ordered list of copper, dielectric,
soldermask, silkscreen and solderpaste layers with thicknesses and materials.
It then does three things:

- **Table.** It lays the stackup out as a table. There are three styles
  (detailed, compact, minimal). The table has header and data cells, and each
  column is as wide as its widest text.
- **Cross-section.** It gives every layer a visual height under a uniform,
  proportional or scaled policy. A vertical cursor walks down the stack and
  emits one (rectangle, leader line, callout) triple per layer, with gaps
  around soldermask layers.
- **Collision resolution.** It finds adjacent callouts that are too close
  together. It places the callouts of the colliding groups symmetrically about
  the middle group, and re-routes their leaders as straight lines or 3-segment
  elbows.

Around that core the project also models:

- **Formatting.** Truncation, layer-name clean-up, unit conversions and the
  choice of thickness unit.
- **Spacing diagnostic.** It records the gaps between callouts and the gaps
  below the minimum.
- **Extraction.** Turning board layers into stackup layers: the nanometre to
  millimetre conversion, the material labels, the material-name heuristic, and
  the filter-and-aggregate loop.
- **Rendering helpers.** The Cohen–Sutherland line clipper and the text
  alignment codes.

There is one Dafny module per source file:

| Module | Source file |
|---|---|
| `Models` | `stackup/core/models.py` |
| `GraphicsModels` | `stackup/core/graphics_models.py` |
| `Formatting` | `stackup/core/formatting.py` |
| `GraphicsLayout` | `stackup/core/graphics_layout.py` |
| `Diagnostics` | `stackup/core/diagnostics.py` |
| `Layout` | `stackup/core/layout.py` (in `table_layout.dfy`) |
| `Extractor` | `stackup/kicad_adapter/extractor.py` |
| `GraphicsRenderer` | `stackup/kicad_adapter/graphics_renderer.py` |

`Numeric` holds the shared `Abs`, `Max` and `Sum`.

Lengths are millimetres as exact `real`s. Code that loops and appends is a
method with loop invariants. Each such method is proved equal to a reference
function, and the properties are proved about that function as lemmas.

The model follows the code in four places where the code departs from its
own comments and configuration:

- **Displacement.** The symmetric displacement unit is the minimum elbow
  height (`stackup/core/graphics_layout.py:364`, `:386`), added to each
  group's own layer centre, although `stackup/core/diagnostics.py:112-116`
  calls the minimum callout spacing the intended unit. The centre index
  counts the colliding groups only.
- **Collision threshold.** Collision detection uses the fixed constant
  `MIN_CALLOUT_SPACING_MM` = 2.0 mm (`stackup/core/graphics_models.py:24`,
  `stackup/core/graphics_layout.py:235`), not the configured
  `min_callout_spacing_mm` (`stackup/core/graphics_models.py:131`).
- **Soldermask gap.** The gap is inserted before every soldermask layer,
  the first in the stack included (`stackup/core/graphics_layout.py:142-144`),
  while its configuration comment speaks of a gap above and below
  (`stackup/core/graphics_models.py:116`).
- **Leader length.** Every leader keeps its configured length
  (`stackup/core/graphics_layout.py:488-498`), so an elbow's final run
  points backwards when the elbow is taller than 0.6 of that length.

## Model

| member | source | states |
|---|---|---|
| Models.LayerTypeValues | stackup/core/models.py:10-16 | exactly five layer types; value text and type round-trip both ways; only the five lower-case names are accepted |
| Models.NewStackupLayer | stackup/core/models.py:26-35 | a new layer carries its four given fields and no colour, permittivity or loss tangent |
| Models.NewTableCell | stackup/core/models.py:47-56 | a new cell carries its given fields, is left-aligned and is not a header |
| Models.NewTableLayout | stackup/core/models.py:59-67 | a new table has no columns, row height 5.0 and padding 1.0 |
| Models.DefaultTableConfig | stackup/core/models.py:70-82 | the default table configuration: detailed, mm, epsilon and material shown, loss tangent and colour hidden, font 3.0, line 0.15, row 5.0, padding 1.0 |
| GraphicsModels.EnumValues | stackup/core/graphics_models.py:30-41 | leader styles and thickness modes each have exactly three values, and value text and variant round-trip both ways |
| GraphicsModels.NewLeader | stackup/core/graphics_models.py:61-67 | a new leader is straight and has no segments |
| GraphicsModels.NewCallout | stackup/core/graphics_models.py:71-78 | a new callout has empty text, font 0.5, left and centre alignment |
| GraphicsModels.NewVisualization | stackup/core/graphics_models.py:81-94 | zero bounds become (0, 0, total width, total height); any other bounds are kept; the other fields are as given |
| GraphicsModels.NewVisualizationIdempotent | stackup/core/graphics_models.py:91-94 | rebuilding a visualisation from its own fields changes nothing |
| GraphicsModels.DefaultGraphicalConfig | stackup/core/graphics_models.py:12-27 | the default drawing configuration: proportional mode, base 3.0, ratios 1.0/1.55/0.5, gap 1.0, leader 20.0, spacing 2.0, elbow 0.5, origin (50, 50) |
| Formatting.PrefixSlice | stackup/core/formatting.py:69 | a slice `text[:k]` with Python's meaning for a negative or too-large k: always a prefix, of length k, the whole text, or the length counted from the end |
| Formatting.TruncateText | stackup/core/formatting.py:56-69 | text that fits is unchanged; longer text becomes a prefix of itself followed by an ellipsis, exactly max_length long when max_length ≥ 1 |
| Formatting.TruncateAtZeroKeepsLength | stackup/core/formatting.py:69 | at max_length 0 the result is as long as the input, so the length bound does not hold there |
| Formatting.RemoveAllShortens | stackup/core/formatting.py:140 | deleting every occurrence of a pattern never lengthens the text, and shortens it when the pattern occurs |
| Formatting.RemoveAllKeepsPlainText | stackup/core/formatting.py:140 | text without the pattern is left unchanged |
| Formatting.RemoveAllChangesIffContains | stackup/core/formatting.py:140 | the deletion changes the text exactly when the pattern occurs in it |
| Formatting.FormatLayerName | stackup/core/formatting.py:128-143 | the cleaned name fits max_length (when ≥ 1) and is never longer than the raw name, except for the lone ellipsis at a negative maximum |
| Formatting.FormatLayerNameKeepsPlainName | stackup/core/formatting.py:140-143 | a short name without "layer_" or "Layer" is shown as it is |
| Formatting.ConversionRoundTrips | stackup/core/formatting.py:72-125 | mm↔mil and mm↔oz conversions are mutual inverses |
| Formatting.ThicknessUnit | stackup/core/formatting.py:19-27 | "mils" shows the value in mils with suffix "mil"; otherwise values below 1 mm show in µm and others in mm |
| Formatting.FormatThickness | stackup/core/formatting.py:7-27 | the text is the value converted to mils followed by "mil" when mils are asked for; otherwise the value times 1000 followed by "µm" below 1 mm, and the value itself followed by "mm" from 1 mm up, each rendered with the requested count of decimals |
| Diagnostics.Spacings | stackup/core/diagnostics.py:96-99 | one gap per consecutive pair of positions, each the absolute difference |
| Diagnostics.ViolationsAreShortGaps | stackup/core/diagnostics.py:102-110 | every recorded violation is a gap below the minimum between positions i and i+1, with that gap and the minimum, in increasing order |
| Diagnostics.ShortGapsAreViolations | stackup/core/diagnostics.py:102-110 | every gap below the minimum is recorded |
| Diagnostics.CaptureSpacingDiagnostic | stackup/core/diagnostics.py:71-130 | the capture loops build exactly the reference diagnostic |
| Diagnostics.HasViolationsIffCloseNeighbours | stackup/core/diagnostics.py:24-26 | `Diagnostics.HasSpacingViolations` (the diagnostic reports violations) holds exactly when two consecutive positions are closer than the configured callout spacing |
| Diagnostics.DiagnosticRecordsUnits | stackup/core/diagnostics.py:112-130 | the used unit is the elbow height and the expected one the callout spacing, differing exactly when those settings differ; every other field is the argument |
| GraphicsLayout.CalculateTolerance | stackup/core/graphics_layout.py:23-34 | the tolerance is the given percentage of the thickness; for a non-negative thickness and a percentage from 0 to 100 it lies between 0 and the thickness |
| GraphicsLayout.FormatCalloutText | stackup/core/graphics_layout.py:37-57 | a callout reads material, thickness, and a ± tolerance of one tenth of the thickness, both to one decimal, in µm below 1 mm and in mm otherwise, as ThicknessUnit chooses |
| GraphicsLayout.CalculateLayerHeights | stackup/core/graphics_layout.py:60-107 | the height loop returns exactly the reference heights, one per layer |
| GraphicsLayout.HeightsByPolicy | stackup/core/graphics_layout.py:74-91 | uniform and unrecognised modes give the base height; proportional gives base × the type's ratio, and 0.5 for silkscreen and solderpaste |
| GraphicsLayout.ScaledHeightsFillMaximum | stackup/core/graphics_layout.py:93-103 | scaled heights sum to the maximum total height when the total thickness is the sum of the layer thicknesses and not zero |
| GraphicsLayout.ScaledFallsBackToUniform | stackup/core/graphics_layout.py:95-96 | with total thickness zero the scaled mode gives every layer the base height |
| GraphicsLayout.CursorIsRunningSum | stackup/core/graphics_layout.py:139-190 | the cursor after k layers is the origin plus the first k heights plus two gaps per soldermask layer among them |
| GraphicsLayout.RectanglesStack | stackup/core/graphics_layout.py:142-190 | each rectangle starts where the previous one ends plus the gaps around the two layers, so rectangles never overlap |
| GraphicsLayout.FirstSoldermaskGetsGap | stackup/core/graphics_layout.py:142-144 | a soldermask layer first in the stack already starts one gap below the origin |
| GraphicsLayout.CalculateGraphicalLayout | stackup/core/graphics_layout.py:110-203 | the placement loop emits exactly the reference layout: a rectangle, leader and callout per layer, with the stated width, height and layer count |
| GraphicsLayout.InitialLayoutIsTripled | stackup/core/graphics_layout.py:139-183 | the layout is rectangle, leader, callout repeated, 3 elements per layer |
| GraphicsLayout.InitialGroupGeometry | stackup/core/graphics_layout.py:147-183 | each rectangle sits at the cursor; its leader is one straight segment of the leader length from the rectangle's right-hand middle; the callout sits 1.0 beyond its end |
| GraphicsLayout.LayoutHeightFormula | stackup/core/graphics_layout.py:186-194 | total height is the sum of the heights plus two gaps per soldermask layer |
| GraphicsLayout.EmptyStackupLayout | stackup/core/graphics_layout.py:132-203 | an empty stackup gives no elements and height 0 |
| GraphicsLayout.CalloutIndices | stackup/core/graphics_layout.py:219-223 | the callout positions listed are callouts, in increasing order |
| GraphicsLayout.CalloutIndicesComplete | stackup/core/graphics_layout.py:219-223 | every callout is listed |
| GraphicsLayout.CollidingCallouts | stackup/core/graphics_layout.py:206-241 | the result holds only callout indices, strictly increasing, so with no repeats |
| GraphicsLayout.CollisionsAreClosePairs | stackup/core/graphics_layout.py:225-239 | both callouts of every adjacent pair closer than 2.0 are reported, and every reported callout belongs to such a pair |
| GraphicsLayout.SpreadCalloutsDoNotCollide | stackup/core/graphics_layout.py:225-239 | callouts at least 2.0 apart produce no collisions |
| GraphicsLayout.DetectCalloutCollisions | stackup/core/graphics_layout.py:206-241 | the detection loop, with its membership checks, returns exactly the reference collision list |
| GraphicsLayout.DisplacementIsOffsetFromMiddle | stackup/core/graphics_layout.py:361-383 | group i is displaced by (i − n div 2) units |
| GraphicsLayout.DisplacementMirrored | stackup/core/graphics_layout.py:361-383 | for an odd group count, groups i and n−1−i are displaced by exact opposites |
| GraphicsLayout.StraightExactlyAtMiddle | stackup/core/graphics_layout.py:361-383 | only the middle group is displaced by less than one unit; every other group by at least one |
| GraphicsLayout.CalculateSymmetricPositions | stackup/core/graphics_layout.py:331-389 | each group's position is its own layer centre plus its displacement in minimum-elbow-height units |
| GraphicsLayout.CalculateElbowHeights | stackup/core/graphics_layout.py:244-270 | each elbow height is the distance from the group's position to its layer centre |
| GraphicsLayout.SymmetricElbowHeights | stackup/core/graphics_layout.py:263-268 | for symmetric positions the elbow height is below one unit exactly at the middle group |
| GraphicsLayout.PushedElbowMeetsMinimum | stackup/core/graphics_layout.py:314-326 | a pushed position is at least the minimum elbow height from the centre and stays on its side of it |
| GraphicsLayout.AdjustSpacingForMinimumElbows | stackup/core/graphics_layout.py:287-328 | only positions with a short elbow move, to centre ± the minimum; the rest and the length are unchanged |
| GraphicsLayout.CalloutGroups | stackup/core/graphics_layout.py:416-420 | one (3g, 3g+1, 3g+2) group for each complete triple, and no others |
| GraphicsLayout.InCalloutGroups | stackup/core/graphics_layout.py:416-420 | every group starts at a multiple of 3 and lies within the elements |
| GraphicsLayout.GroupsToAdjustMembers | stackup/core/graphics_layout.py:423-426 | the groups to adjust are exactly the groups whose callout collides |
| GraphicsLayout.GroupsToAdjustSorted | stackup/core/graphics_layout.py:423-426 | the groups to adjust keep the groups' order |
| GraphicsLayout.CalloutAfter | stackup/core/graphics_layout.py:468-474 | a re-placed callout keeps its text, font and alignment |
| GraphicsLayout.ResolvedLeaderGeometry | stackup/core/graphics_layout.py:453-519 | straight exactly when the elbow is below the minimum, the test `GraphicsLayout.ShouldUseStraightLine` makes (`stackup/core/graphics_layout.py:273-284`); an elbow has 3 contiguous segments: horizontal 0.4·L, then 45°, then horizontal to the target y; it angles down exactly when the target is lower; it ends L from its start; the callout sits 1.0 beyond the end |
| GraphicsLayout.ResolvedOffset | stackup/core/graphics_layout.py:453-499 | a re-routed leader ends at the layer centre when straight, else at the target |
| GraphicsLayout.RerouteGroups | stackup/core/graphics_layout.py:441-522 | the overwrite loop produces the reference re-routing, reading original rectangles and callouts |
| GraphicsLayout.AdjustLeaderLines | stackup/core/graphics_layout.py:392-531 | the adjustment returns exactly the reference adjusted layout |
| GraphicsLayout.AdjustedLayout | stackup/core/graphics_layout.py:525-531 | the adjusted layout keeps the element count, totals, layer count and non-zero bounds |
| GraphicsLayout.AdjustWithoutCollisionsIsIdentity | stackup/core/graphics_layout.py:412-413 | without collisions the layout is returned unchanged |
| GraphicsLayout.AdjustKeepsFrame | stackup/core/graphics_layout.py:521-522 | rectangles, and the leaders and callouts of groups that do not collide, are unchanged |
| GraphicsLayout.AdjustKeepsGroup | stackup/core/graphics_layout.py:423-426 | a group whose callout does not collide comes out unchanged |
| GraphicsLayout.CollidingGroupRerouted | stackup/core/graphics_layout.py:441-522 | a colliding group gets a re-routed leader from its rectangle's right-hand middle, of length L, and its callout re-placed after it |
| GraphicsLayout.AdjustedGroupAt | stackup/core/graphics_layout.py:436-522 | the k-th adjusted group's leader and callout are those re-routed to its layer centre plus its displacement |
| GraphicsLayout.CalloutsAlignedAfterAdjusting | stackup/core/graphics_layout.py:158-183 | after adjustment every leader of a laid-out stackup still ends at origin x + width + L, with its callout 1.0 beyond, on the leader's end height |
| GraphicsLayout.AdjustKeepsAlignment | stackup/core/graphics_layout.py:455-514 | adjustment preserves each group's alignment of leader end and callout |
| GraphicsLayout.OnlyMiddleGroupStraight | stackup/core/graphics_layout.py:373-375 | among the adjusted groups, exactly the middle one gets a straight leader, ending at its layer centre |
| GraphicsLayout.AdjustedOffsetsMirrored | stackup/core/graphics_layout.py:373-386 | for an odd number of adjusted groups, mirrored groups' leader ends are displaced from their layer centres by exact opposites |
| Layout.InColumnMembers | stackup/core/layout.py:358-363 | a column's list holds exactly the cells with that column number |
| Layout.GroupByColumn | stackup/core/layout.py:358-363 | the grouping loop builds one entry per column seen, holding that column's cells in order |
| Layout.MaxTextWidthIsMax | stackup/core/layout.py:368-374 | the running maximum bounds every cell's text width and is attained, or is 0 for no cells |
| Layout.WidestText | stackup/core/layout.py:368-374 | the running-maximum loop computes the reference maximum |
| Layout.ColumnWidthFits | stackup/core/layout.py:368-378 | a column's width is at least 10.0, fits every cell's text plus padding, and is 10.0 or some cell's text width |
| Layout.FirstSeen | stackup/core/layout.py:359-363 | the column numbers seen, each once |
| Layout.SortKeys | stackup/core/layout.py:367 | the column numbers sorted increasingly, none lost or added |
| Layout.WidthsInKeyOrder | stackup/core/layout.py:367-378 | one width per column number, in sorted order |
| Layout.CalculateOptimalWidths | stackup/core/layout.py:347-380 | the width computation returns exactly the reference widths |
| Layout.OptimalWidthsOfGrid | stackup/core/layout.py:347-380 | for a grid with columns 0..k−1 the widths are the k column widths in order |
| Layout.DetailedColumnsOrder | stackup/core/layout.py:52-60 | Layer, Type, Thickness, then Material, εᵣ, tan δ, Color in that order, each exactly when its flag is set |
| Layout.DetailedColumnList | stackup/core/layout.py:52-60 | the append sequence builds exactly those columns |
| Layout.TypeLabels | stackup/core/layout.py:92 | the Type cell shows the type's value with a capital initial |
| Layout.CellFor | stackup/core/layout.py:77-161 | a data cell lies at its row and column, is not a header and is one row high |
| Layout.MissingValuesShowDash | stackup/core/layout.py:124-161 | epsilon, loss tangent and colour cells show a dash for a missing, zero or empty value and otherwise the formatted value: `Formatting.FormatEpsilon` renders epsilon with 2 decimals and `Formatting.FormatLossTangent` the loss tangent with 4 (`stackup/core/formatting.py:30-54`) |
| Layout.DetailedRowMatchesHeaders | stackup/core/layout.py:77-161 | the detailed row, built with a running column counter, has under each column the cell its header calls for |
| Layout.DetailedDataRow | stackup/core/layout.py:77-161 | the detailed row loop builds exactly that row |
| Layout.ShortRowsMatchHeaders | stackup/core/layout.py:218-247 | compact and minimal rows hold name, thickness (and material) at columns 0, 1 (and 2) |
| Layout.CopperOnlyMembers | stackup/core/layout.py:303-304 | the minimal table's rows are exactly the copper layers |
| Layout.HeaderRow | stackup/core/layout.py:63-72 | one header cell per column, at row 0, centred, marked as header |
| Layout.TableHeaderAt | stackup/core/layout.py:205-214 | in the finished table, cell c is column c's header at row 0, centred, with its column's width |
| Layout.TableCellAt | stackup/core/layout.py:75-163 | in the finished table, layer i's cell under column c is at row i+1, with its column's width |
| Layout.GridColumns | stackup/core/layout.py:63-163 | every header and data cell is in one of the table's columns |
| Layout.AssignColumnWidths | stackup/core/layout.py:165-172 | each cell's width becomes its column's width, nothing else changes |
| Layout.FinishAt | stackup/core/layout.py:251-258 | after finishing, every cell's width equals its column's fitted width |
| Layout.TableTotals | stackup/core/layout.py:327-339 | the table has one header row and one row per layer of cells; total width is the sum of the column widths; columns, row height and padding are carried |
| Layout.TableHeight | stackup/core/layout.py:174 | total height is (last row + 1) × row height |
| Layout.TotalHeight | stackup/core/layout.py:259 | the height computation equals rows × row height |
| Layout.DetailedLayout | stackup/core/layout.py:35-183 | the detailed builder produces exactly the reference detailed table |
| Layout.CompactLayout | stackup/core/layout.py:186-268 | the compact builder produces exactly the reference compact table |
| Layout.MinimalLayout | stackup/core/layout.py:271-344 | the minimal builder produces exactly the reference table over the copper layers |
| Layout.LayoutForShape | stackup/core/layout.py:24-32 | "detailed" and "compact" pick their columns, anything else the minimal ones; cells are one header plus one row per layer (per copper layer for minimal) |
| Layout.CalculateTableLayout | stackup/core/layout.py:10-32 | a missing configuration means the default one; the style picks the builder |
| Layout.FirstWidthAt | stackup/core/layout.py:403-408 | a column's width is read from its first cell |
| Layout.CalculateCellPosition | stackup/core/layout.py:383-413 | x is the origin plus the widths of the earlier columns, y the origin plus row × row height |
| Layout.FirstWidthIsFitted | stackup/core/layout.py:401-408 | in a finished table a column's first cell carries that column's fitted width |
| Layout.ColumnOffsets | stackup/core/layout.py:401-408 | a cell's x offset is the sum of the widths of the columns before it |
| Layout.LastColumnEndsTable | stackup/core/layout.py:169-172 | the offset after the last column is the table's total width |
| Extractor.ExtractStackupData | stackup/kicad_adapter/extractor.py:23-72 | a stackup that cannot be fetched is an error; otherwise the loop produces the reference stackup data |
| Extractor.ExtractedStackupShape | stackup/kicad_adapter/extractor.py:45-65 | no silkscreen or solderpaste layer is kept; the copper count is the number of kept copper layers; the board name is the file name or "Unknown" |
| Extractor.KeptLayersAreNonCosmetic | stackup/kicad_adapter/extractor.py:45-54 | the kept layers are exactly the converted board layers that are not silkscreen or solderpaste |
| Extractor.KeptLayersAppend | stackup/kicad_adapter/extractor.py:45-54 | filtering keeps the original order: it distributes over concatenation |
| Extractor.NonCosmeticMembers | stackup/kicad_adapter/extractor.py:51-54 | filtering keeps exactly the layers that are not silkscreen or solderpaste |
| Extractor.AggregateStep | stackup/kicad_adapter/extractor.py:56-59 | each kept layer adds its thickness to the total, and one to the copper count when it is copper |
| Extractor.CopperCountIsCopperRows | stackup/kicad_adapter/extractor.py:56-57 | the copper count equals the number of rows of the minimal table |
| Extractor.ExtractedScaledHeightsFillMaximum | stackup/kicad_adapter/extractor.py:59 | for an extracted stackup with non-zero thickness, scaled heights fill the maximum height |
| Extractor.ConvertLayer | stackup/kicad_adapter/extractor.py:75-167 | the conversion, with its sublayer search loop and its exception handler, produces exactly the reference layer |
| Extractor.ConvertedLayerFields | stackup/kicad_adapter/extractor.py:94-157 | thickness is nm / 10⁶ or 0.0 when unreadable; fixed labels for copper, soldermask, silkscreen and solderpaste; a dielectric gets its stripped name, else the first non-blank stripped sublayer name, else "DIELECTRIC", and also "DIELECTRIC" when reading its name, its sublayers or a sublayer name before the first filled one raises; the label is never empty; optional fields are copied |
| Extractor.LayerNames | stackup/kicad_adapter/extractor.py:89-92 | the name is the layer's own, else "Layer " and its id, else "Unknown"; different ids give different fallback names |
| Extractor.FirstNamedSublayer | stackup/kicad_adapter/extractor.py:127-130 | the search loop ends as the sublayer search does: with the first non-blank sublayer name stripped, with nothing, or abandoned by a read that raises |
| Extractor.FirstFilled | stackup/kicad_adapter/extractor.py:127-130 | a name the search finds is never empty |
| Extractor.FirstFilledExhausted | stackup/kicad_adapter/extractor.py:127-130 | the search runs out exactly when every sublayer name reads as blank |
| Extractor.FirstFilledStops | stackup/kicad_adapter/extractor.py:127-137 | the first sublayer that is not blank decides the search: its stripped name when filled, abandonment when its read raises |
| Extractor.FirstFilledIndex | stackup/kicad_adapter/extractor.py:127-130 | a search that does not run out stopped at a sublayer preceded only by blank ones |
| Extractor.StripShape | stackup/kicad_adapter/extractor.py:119-129 | stripping removes exactly the leading and trailing whitespace; the result is empty exactly for a blank name |
| Extractor.IntTextInjective | stackup/kicad_adapter/extractor.py:90 | different layer ids have different decimal texts |
| Extractor.DecimalDigitsRoundTrip | stackup/kicad_adapter/extractor.py:90 | a number's decimal digits read back as the number |
| Extractor.MaterialTypeHeuristic | stackup/kicad_adapter/extractor.py:212-223 | the material heuristic never yields solderpaste |
| Extractor.MaterialClasses | stackup/kicad_adapter/extractor.py:212-223 | copper exactly for "copper" or "cu"; otherwise dielectric for fr4, prepreg or core; otherwise soldermask for "mask"; otherwise silkscreen for "silk"; otherwise dielectric |
| Extractor.MaterialHeuristicIgnoresCase | stackup/kicad_adapter/extractor.py:212 | the heuristic ignores letter case |
| Extractor.SoldermaskHoldsMask | stackup/kicad_adapter/extractor.py:218 | the "soldermask" test is subsumed by the "mask" test |
| Extractor.HasSubstringIffContains | stackup/kicad_adapter/extractor.py:213-220 | the search used for `in` finds a pattern exactly when it occurs |
| GraphicsRenderer.RectOf | stackup/kicad_adapter/graphics_renderer.py:212-216 | the bounds span the given corner, width and height |
| GraphicsRenderer.Outcode | stackup/kicad_adapter/graphics_renderer.py:218-235 | LEFT/RIGHT and TOP/BOTTOM bits exactly for points beyond each edge, exclusive in pairs; boundary points are inside |
| GraphicsRenderer.ClipLineToRect | stackup/kicad_adapter/graphics_renderer.py:196-273 | the clipping loop returns exactly the reference clipping |
| GraphicsRenderer.Intersection | stackup/kicad_adapter/graphics_renderer.py:251-265 | the intersection is on the edge chosen TOP, BOTTOM, RIGHT, LEFT in that order |
| GraphicsRenderer.EdgeSeparates | stackup/kicad_adapter/graphics_renderer.py:246-265 | the chosen edge lies between the endpoints, so the divisor is never zero |
| GraphicsRenderer.PassShrinks | stackup/kicad_adapter/graphics_renderer.py:251-273 | each pass clears at least one outside side, so the loop ends |
| GraphicsRenderer.ClipFromPass | stackup/kicad_adapter/graphics_renderer.py:267-273 | one pass replaces an outside endpoint without changing the final result |
| GraphicsRenderer.ClipResult | stackup/kicad_adapter/graphics_renderer.py:196-273 | a returned segment lies inside the rectangle and both its end points are points of the original segment; a segment is returned exactly when some point of the original lies in the rectangle, so None means fully outside; a segment inside is returned unchanged; end points sharing an outside side give None |
| GraphicsRenderer.EdgeParamAt | stackup/kicad_adapter/graphics_renderer.py:254-266 | the intersection point is the point of the current segment at a parameter in [0, 1] |
| GraphicsRenderer.PassKeepsInside | stackup/kicad_adapter/graphics_renderer.py:251-273 | replacing the outside end point by the intersection cuts off no point of the segment that lies in the rectangle |
| GraphicsRenderer.ClipParams | stackup/kicad_adapter/graphics_renderer.py:242-273 | the returned end points are points of the input segment, at parameters in [0, 1] |
| GraphicsRenderer.ClipFindsInside | stackup/kicad_adapter/graphics_renderer.py:242-273 | a segment with a point inside the rectangle is never rejected |
| GraphicsRenderer.TouchingNeverRejected | stackup/kicad_adapter/graphics_renderer.py:242-273 | a segment with an endpoint inside is never rejected |
| GraphicsRenderer.AtMostFourPasses | stackup/kicad_adapter/graphics_renderer.py:240-273 | the loop makes at most four passes |
| GraphicsRenderer.AlignmentCodes | stackup/kicad_adapter/graphics_renderer.py:415-433 | horizontal codes 2 for centre, 3 for right, else 1; vertical 2, 3, else 1; they agree with the SVG anchors and baselines for the three known values |
| GraphicsRenderer.UnknownVerticalAlignDiverges | stackup/kicad_adapter/graphics_renderer.py:505-516 | an unknown vertical alignment is top on the board but middle in SVG |
| GraphicsRenderer.DefaultCalloutAlignment | stackup/kicad_adapter/graphics_renderer.py:415-433 | a default callout is left- and centre-aligned on the board and in SVG |

## Left out

- Board access through the KiCad IPC library is not part of this model. That covers:
  - `render_graphical_stackup`;
  - `_add_rectangle`, `_add_leader_line` and `_add_callout_text`, except for the alignment mapping;
  - `stackup/kicad_adapter/renderer.py` and `stackup/kicad_adapter/connection.py`;
  - fetching the board and its stackup.

  A board layer is an input value (`Extractor.RawLayer`). A read that raises is `None` in its field: the name, layer id, thickness, material name, the list of dielectric sublayers, and each sublayer's material name. Colour, epsilon and loss tangent are `None` when unset or unreadable.
- `_determine_layer_type`'s protobuf branch and its layer-id check depend on library constants. The layer type is an input; only the material-name heuristic is modelled.
- `_get_default_material` (`stackup/kicad_adapter/extractor.py:229-273`) is never called and is not modelled.
- `_generate_hatch_lines` uses trigonometry, square roots and float truncation.
- Number-to-text rendering is the parameter `render` (Python's float formatting has no counterpart here). That covers:
  - the digits in `format_thickness`, `format_epsilon` and `format_loss_tangent`;
  - the SVG serialisers;
  - `SpacingDiagnostic.summary`.
- Floating-point rounding: lengths are exact reals.
- Extractor.Lower: lower-casing acts on ASCII letters only; Python's `lower` also maps other Unicode letters.
- Layout.Capitalize: `capitalize` acts on ASCII letters only, for the same reason.
- Extractor.StripShape: whitespace is space, tab, line feed, carriage return, vertical tab and form feed. Python's `strip` also removes the ASCII separators U+001C to U+001F, U+0085, U+00A0 and the other Unicode spaces.
- GraphicsRenderer.ClipLineToRect: requires a non-negative rectangle width and height. That is what makes the loop provably end. The code states no such requirement, and on floats its termination is not guaranteed.
- Layout.AssignColumnWidths: the in-place `cell.width` update is modelled as a new sequence of cells, so aliasing of cells is not captured.
- The configuration fields `scale_mm`, `leader_direction` and `callout_format` are declared but never read, and are not modelled. Neither is the two-pass rescaling they describe.
- The command-line tool, the interactive generator, JSON export and file output are not part of this model.
