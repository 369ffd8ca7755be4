# Edge-to-edge preview and inset overlap checks, modelled in Dafny

This project models the logic behind the Compose edge-to-edge tooling: the
preview template that simulates system bars as window insets, the inset
records a device recording produces, the overlap assertions that walk a
semantics tree and report every node drawn under an inset, the text dump of
semantics nodes used in their failure messages, and the experimental
inset-aware layouts (split layouts, `SmartInsetsConsumer`, `SmartScaffold`).
Everything is in whole pixels at density 1.

Modules, one per source file (duplicated copies of a function in other
modules share one model):

- `Geometry` (geometry.dfy): rectangles, four-edge insets, the
  `WindowInsetsSides` mask as a 4-bit vector with its set view, and
  `toBounds`, which turns the insets of a window into one band per selected
  side whose inset is positive.
- `InsetTypes` (inset_types.dfy): the eight `WindowInsetsCompat.Type`
  constants as single bits, and the two ways the source names a type: the
  bitmask form, which lists every set bit and throws when none is set, and
  the exact-match form used for recordings, which throws on combined values.
- `InsetRecords` (inset_records.dfy): the serialized inset record, the
  navigation mode setting and `recordInsets`, which records the eight types
  with the framework's readings given as parameters.
- `InsetsBuilder` (insets_builder.dfy): the `buildInsets` DSL. An
  `InsetsDsl` object keeps three tables per type (visible insets, insets
  ignoring visibility, visibility flag). Its `setInset` calls update these
  tables in place; the block is a sequence of such calls replayed in order.
- `Template` (edge_to_edge_template.dfy): the `InsetsConfig` presets, where
  the template places the navigation bar and the camera cutout, and the
  inset block of the template, built from four guarded `setInset` calls.
- `OverlapCheck` (overlap_check.dfy): the pre-order
  search for matching descendants into a mutable list, the nearest scroll
  ranges, the sides left to check when scrolling can move content out from
  under a bar, and `checkOverlap`.
- `SemanticsNodeInfo` (semantics_print.dfy): the recursive tree dump
  `printToString`, the configuration lines, the child and sibling counts,
  the collection dump and `buildGeneralErrorMessage`. Every
  `StringBuilder` append is a method on a builder whose text is the
  concatenation of its appended pieces.
- `WindowInsetsTest` (window_insets_test.dfy): the test library's
  `testWindowInsets`. It searches the first-child chain for the anchor,
  checks that the recorded insets are not empty, and loops over the nodes.
  For each overlapping node the loop appends a report and requests a
  screenshot. The test ends in an `AssertionError` iff some node overlaps.
- `LegacyWindowInsetsTest` (legacy_window_insets_test.dfy): the preview
  app's older `assertWindowInsets` and `assertAllWindowInsets`, with the
  traversal-group search and their own side rule.
- `ComposeLayout`, `SplitLayout`, `SmartInsets`, `SmartScaffold`: the
  measure-and-place blocks of the layout experiments. Each is a method that
  returns the pane placement and updates the `MutablePaddingValues` holders
  it is given. Each is proved equal to a function whose tiling and
  consumption properties are lemmas.
- `SemanticsTree`, `Sequences`, `Text`, `Wrappers`: the semantics node
  value with its root path, Kotlin's `filter`, decimal rendering and string
  joining, and `Option`/`Result`. A thrown exception becomes an `Err` or a
  failure value.

Framework reads are parameters of the model. These include the recorded
insets, the nodes the test fetches, the device name, the navigation-mode
setting, measured child sizes and the window position. The tests'
screenshots are modelled as the list of file names requested.

## Model

| member | source | states |
|---|---|---|
| Geometry.OverlapsSymmetric | edge_to_edge_preview_check_lib/src/main/java/de/drick/compose/edgetoedge/test/overlap_check.kt:79 | Overlap is symmetric, so `nodeRect.overlaps(insetRect)` here and `it.overlaps(bounds)` in the test libraries ask the same question |
| Geometry.TouchingDoesNotOverlap | edge_to_edge_preview_check_lib/src/main/java/de/drick/compose/edgetoedge/test/overlap_check.kt:79 | Two rectangles that only share an edge do not overlap, so content laid out right against a bar passes |
| Geometry.EdgeBand | edge_to_edge_preview_check_lib/src/main/java/de/drick/compose/edgetoedge/test/overlap_check.kt:92-135 | The band of a side is the full-height strip at the left or right window edge, or the full-width strip at the top or bottom edge, and it is as thick as the inset on that side |
| Geometry.ToBounds | edge_to_edge_preview_check_lib/src/main/java/de/drick/compose/edgetoedge/test/overlap_check.kt:88-136 | `toBounds` yields at most four bands, and none when no side is selected |
| Geometry.ToBoundsIsEmittedBands | edge_to_edge_preview_check_lib/src/main/java/de/drick/compose/edgetoedge/test/overlap_check.kt:88-136 | `toBounds` equals the band of every side whose inset is positive and which is selected, in the order left, top, right, bottom |
| Geometry.ToBoundsEmitsIff | edge_to_edge_preview_check_lib/src/main/java/de/drick/compose/edgetoedge/test/overlap_check.kt:93 | A side's band is produced iff the inset on that side is positive and the side is selected |
| Geometry.ToBoundsOfEmptyInsets | edge_to_edge_preview_check_lib/src/main/java/de/drick/compose/edgetoedge/test/overlap_check.kt:88-136 | Insets that are zero or negative on every edge produce no band at all |
| Geometry.ToBoundsInsideWindow | edge_to_edge_preview_check_lib/src/main/java/de/drick/compose/edgetoedge/test/overlap_check.kt:88-136 | Every band lies inside the window when each inset fits the matching window dimension |
| Geometry.SidesOf | edge_to_edge_test_lib/src/main/java/de/telekom/edgetoedgetestlib/semantics_node_info.kt:17-18 | A side is in the set a `WindowInsetsSides` mask selects iff `intersect` holds for that side's bit |
| Geometry.MaskOf | edge_to_edge_test_lib/src/main/java/de/telekom/edgetoedgetestlib/semantics_node_info.kt:17-18 | The mask built from a side set passes `intersect` for exactly the sides in the set |
| Geometry.MaskSidesRoundTrip | edge_to_edge_test_lib/src/main/java/de/telekom/edgetoedgetestlib/semantics_node_info.kt:17-18 | Masks and side sets convert into each other without loss, in both directions |
| Geometry.IntersectReflexive | edge_to_edge_test_lib/src/main/java/de/telekom/edgetoedgetestlib/semantics_node_info.kt:17-18 | Every mask contains itself |
| Geometry.IntersectMonotone | edge_to_edge_test_lib/src/main/java/de/telekom/edgetoedgetestlib/semantics_node_info.kt:17-18 | Adding sides to the receiver (`+`) keeps every side it contained |
| Geometry.IntersectIsSubset | edge_to_edge_test_lib/src/main/java/de/telekom/edgetoedgetestlib/semantics_node_info.kt:17-18 | `a.intersect(s)` holds iff the sides of `s` are a subset of the sides of `a` |
| Geometry.SidesOfUnion | edge_to_edge_test_lib/src/main/java/de/drick/compose/edgetoedgetestlib/window_insets_test.kt:279 | `sides += WindowInsetsSides.Top` adds exactly the sides of the right operand to the selected set |
| Geometry.ToBoundsMask | edge_to_edge_test_lib/src/main/java/de/drick/compose/edgetoedgetestlib/window_insets_test.kt:395-443 | The `WindowInsetsSides` form of `toBounds` yields at most four bands |
| Geometry.ToBoundsMaskAgrees | edge_to_edge_test_lib/src/main/java/de/drick/compose/edgetoedgetestlib/window_insets_test.kt:395-443 | The mask form of `toBounds` (here and at edge_to_edge_test.kt:134-182) equals the set form applied to the sides the mask selects |
| InsetTypes.TypeBit | edge_to_edge_test_lib/src/main/java/de/drick/compose/edgetoedgetestlib/window_insets_test.kt:354-375 | Each of the eight inset types is one non-zero bit within the lowest byte |
| InsetTypes.TypeBitsDisjoint | edge_to_edge_test_lib/src/main/java/de/drick/compose/edgetoedgetestlib/window_insets_test.kt:354-375 | Two types are different iff their bits are disjoint |
| InsetTypes.SharesBitIffSet | edge_to_edge_test_lib/src/main/java/de/drick/compose/edgetoedgetestlib/window_insets_test.kt:354 | Kotlin's signed test `type and bit > 0` holds iff the type's bit is set in the mask |
| InsetTypes.TypesIn | edge_to_edge_test_lib/src/main/java/de/drick/compose/edgetoedgetestlib/window_insets_test.kt:353-378 | The list of set types is never longer than the order it is taken from |
| InsetTypes.TypesInMembers | edge_to_edge_test_lib/src/main/java/de/drick/compose/edgetoedgetestlib/window_insets_test.kt:353-378 | A type is listed iff it is in the tested order and its bit is set |
| InsetTypes.TypesInIff | edge_to_edge_test_lib/src/main/java/de/drick/compose/edgetoedgetestlib/window_insets_test.kt:353-378 | In the naming order, a type is listed iff its bit is set in the mask |
| InsetTypes.Names | edge_to_edge_test_lib/src/main/java/de/drick/compose/edgetoedgetestlib/window_insets_test.kt:353-378 | One name per listed type, each the type's short name, in the same order |
| InsetTypes.NameFromTypeMask | edge_to_edge_test_lib/src/main/java/de/drick/compose/edgetoedgetestlib/window_insets_test.kt:349-381 | A failure carries the message "Type: <value> is unknown!" |
| InsetTypes.NameFromTypeMaskFailsIff | edge_to_edge_test_lib/src/main/java/de/drick/compose/edgetoedgetestlib/window_insets_test.kt:379 | The bitmask naming throws iff none of the eight type bits is set |
| InsetTypes.NameOfSingleType | edge_to_edge_test_lib/src/main/java/de/drick/compose/edgetoedgetestlib/window_insets_test.kt:349-381 | A single type's bit is named by that type's short name alone |
| InsetTypes.TypesOfSingleType | edge_to_edge_test_lib/src/main/java/de/drick/compose/edgetoedgetestlib/window_insets_test.kt:353-378 | The bit of one type selects that type and no other |
| InsetTypes.QualifiedTypeName | device_recording/src/main/java/de/drick/compose/devicerecording/recording_model.kt:85-101 | The exact-match naming succeeds iff the value is exactly one of the eight constants, and otherwise fails with "Type: <value> is unknown!" |
| InsetTypes.QualifiedNameOfBit | device_recording/src/main/java/de/drick/compose/devicerecording/recording_model.kt:89-100 | The bit of a type is named "WindowInsetsCompat.Type.<name>()" for that type |
| InsetTypes.CombinedTypeIsUnknown | device_recording/src/main/java/de/drick/compose/devicerecording/recording_model.kt:98 | An OR of two different types is none of the constants, so the exact-match naming throws on it |
| InsetTypes.NamingFormsAgree | device_recording/src/main/java/de/drick/compose/devicerecording/recording_model.kt:85-101 | On a single type both naming forms succeed, and the qualified name is the bitmask name wrapped in "WindowInsetsCompat.Type." and "()" |
| InsetRecords.SerializerRoundTrip | device_recording/src/main/java/de/drick/compose/devicerecording/recording_model.kt:66-79 | Deserializing a serialized inset gives back the same four edges, and serializing a deserialized JSON value gives back that JSON |
| InsetRecords.NavigationModeOf | device_recording/src/main/java/de/drick/compose/devicerecording/recording_model.kt:117-121 | The setting gives a mode iff it indexes `NavigationMode.entries`: 0 is ThreeButton and 1 is Gesture |
| InsetRecords.RecordedNavigationMode | device_recording/src/main/java/de/drick/compose/devicerecording/recording_model.kt:196 | The recorded mode is Gesture iff the setting is 1, and ThreeButton otherwise (including the missing setting -1) |
| InsetRecords.RecordInsetList | device_recording/src/main/java/de/drick/compose/devicerecording/recording_model.kt:130-179 | Eight entries in the fixed type order; cutout and both gesture types are always visible; ime, cutout and both gesture types have the same visible and ignoring-visibility insets |
| InsetRecords.RecordedTypesComplete | device_recording/src/main/java/de/drick/compose/devicerecording/recording_model.kt:130-179 | Every type is recorded exactly once, and every recorded type can be named without an exception |
| InsetRecords.RecordInsets | device_recording/src/main/java/de/drick/compose/devicerecording/recording_model.kt:125-199 | The recording falls back to ThreeButton iff the setting is not 1, holds the eight-entry list, and copies the window size |
| InsetsBuilder.InsetsAt | edge_to_edge_preview_lib/src/main/java/de/drick/compose/edgetoedgepreviewlib/insets_builder.kt:42-47 | A positional `setInset` puts `size` on the named edge and 0 on the three others |
| InsetsBuilder.Apply | edge_to_edge_preview_lib/src/main/java/de/drick/compose/edgetoedgepreviewlib/insets_builder.kt:57-65 | One call records its insets ignoring visibility and its flag for its type, and records its visible insets only when `isVisible` |
| InsetsBuilder.InsetsDsl.constructor | edge_to_edge_preview_lib/src/main/java/de/drick/compose/edgetoedgepreviewlib/insets_builder.kt:35 | A fresh builder has nothing recorded |
| InsetsBuilder.InsetsDsl.SetInset | edge_to_edge_preview_lib/src/main/java/de/drick/compose/edgetoedgepreviewlib/insets_builder.kt:50-65 | The four-edge call returns the insets it was given and updates the three tables as `Apply` describes, for its own type only |
| InsetsBuilder.InsetsDsl.SetInsetAt | edge_to_edge_preview_lib/src/main/java/de/drick/compose/edgetoedgepreviewlib/insets_builder.kt:36-47 | The positional call returns `size` on its edge and has the same effect as the four-edge call with those insets |
| InsetsBuilder.BuildInsets | edge_to_edge_preview_lib/src/main/java/de/drick/compose/edgetoedgepreviewlib/insets_builder.kt:33-69 | `buildInsets` yields the tables obtained by applying the block's calls in order to an empty builder |
| InsetsBuilder.ReplayTouches | edge_to_edge_preview_lib/src/main/java/de/drick/compose/edgetoedgepreviewlib/insets_builder.kt:59-63 | A type has insets ignoring visibility and a flag iff some call names it, and has visible insets only if some call names it |
| InsetsBuilder.LastCallDecides | edge_to_edge_preview_lib/src/main/java/de/drick/compose/edgetoedgepreviewlib/insets_builder.kt:59-63 | The last call for a type decides its insets ignoring visibility and its flag; it replaces the visible insets iff it is visible, and a hidden call keeps the earlier visible insets |
| InsetsBuilder.OtherTypeUnchanged | edge_to_edge_preview_lib/src/main/java/de/drick/compose/edgetoedgepreviewlib/insets_builder.kt:59-63 | A call for one type leaves every other type's three tables as they were |
| InsetsBuilder.ReplayByCallFor | edge_to_edge_preview_lib/src/main/java/de/drick/compose/edgetoedgepreviewlib/insets_builder.kt:33-69 | When each call names a different type, a type's tables hold exactly what its own call wrote: nothing without a call, otherwise its insets and flag, and its visible insets iff it is visible |
| Template.TemplateConfig | edge_to_edge_preview_lib/src/main/java/de/drick/compose/edgetoedgepreviewlib/edge_to_edge_template.kt:112-122 | The first template overload keeps the default sizes 24 (status bar), 52 (cutout) and 42 (caption bar), and a navigation bar of 48 for three-button and 32 for gesture navigation |
| Template.ConfigDefaults | edge_to_edge_preview_lib/src/main/java/de/drick/compose/edgetoedgepreviewlib/edge_to_edge_template.kt:60-89 | The default configuration and the GestureNav, InvertedOrientation and DesktopMode presets carry the documented modes and sizes |
| Template.PlacementTable | edge_to_edge_preview_lib/src/main/java/de/drick/compose/edgetoedgepreviewlib/edge_to_edge_template.kt:140-151 | In landscape three-button mode the navigation bar and the cutout sit on opposite sides, and the cutout is on the left unless inverted; in portrait the navigation bar is at the bottom, and the cutout is at the top unless inverted |
| Template.StatusBarHeight | edge_to_edge_preview_lib/src/main/java/de/drick/compose/edgetoedgepreviewlib/edge_to_edge_template.kt:156 | The status bar is at least its configured size; it is at least the cutout size when the cutout is at the top, and exactly its configured size otherwise |
| Template.NavigationAbsorbsCutoutIff | edge_to_edge_preview_lib/src/main/java/de/drick/compose/edgetoedgepreviewlib/edge_to_edge_template.kt:174-175 | The navigation inset grows by the cutout size iff both sit at the bottom, which happens exactly in inverted portrait |
| Template.TemplateBlockDistinct | edge_to_edge_preview_lib/src/main/java/de/drick/compose/edgetoedgepreviewlib/edge_to_edge_template.kt:164-199 | The template makes at most four `setInset` calls, each for a different type among status bar, navigation bar, cutout and caption bar |
| Template.TemplateInsets | edge_to_edge_preview_lib/src/main/java/de/drick/compose/edgetoedgepreviewlib/edge_to_edge_template.kt:164-199 | The guarded calls, run on a fresh builder, yield the tables of the template's call block |
| Template.SetStatusBar | edge_to_edge_preview_lib/src/main/java/de/drick/compose/edgetoedgepreviewlib/edge_to_edge_template.kt:165-172 | The status-bar step leaves the builder as its call (or no call, when Off) describes |
| Template.SetNavigationBar | edge_to_edge_preview_lib/src/main/java/de/drick/compose/edgetoedgepreviewlib/edge_to_edge_template.kt:173-182 | The navigation-bar step extends the builder's history by its call, or by nothing when Off |
| Template.SetCutout | edge_to_edge_preview_lib/src/main/java/de/drick/compose/edgetoedgepreviewlib/edge_to_edge_template.kt:183-190 | The cutout step extends the builder's history by its call, or by nothing when there is no cutout |
| Template.SetCaptionBar | edge_to_edge_preview_lib/src/main/java/de/drick/compose/edgetoedgepreviewlib/edge_to_edge_template.kt:191-198 | The caption-bar step extends the builder's history by its call, or by nothing when Off |
| Template.TemplateStatusBar | edge_to_edge_preview_lib/src/main/java/de/drick/compose/edgetoedgepreviewlib/edge_to_edge_template.kt:165-172 | The status bar is present iff not Off, visible iff Visible, and lies at the top with the stretched height |
| Template.TemplateNavigationBar | edge_to_edge_preview_lib/src/main/java/de/drick/compose/edgetoedgepreviewlib/edge_to_edge_template.kt:173-182 | The navigation bar is present iff not Off, visible iff Visible, and lies at its position with its size (plus the cutout in inverted portrait) |
| Template.TemplateCutout | edge_to_edge_preview_lib/src/main/java/de/drick/compose/edgetoedgepreviewlib/edge_to_edge_template.kt:183-190 | The cutout is present and visible iff there is one, and lies at its position with its size |
| Template.TemplateCaptionBar | edge_to_edge_preview_lib/src/main/java/de/drick/compose/edgetoedgepreviewlib/edge_to_edge_template.kt:191-198 | The caption bar is present iff not Off, and then it is visible (even in Hidden mode) at the top with its size |
| Template.TemplateOnlyFourTypes | edge_to_edge_preview_lib/src/main/java/de/drick/compose/edgetoedgepreviewlib/edge_to_edge_template.kt:164-199 | No type other than the four the template sets is ever recorded |
| Template.StatusBarCutoutPadding | edge_to_edge_preview_lib/src/main/java/de/drick/compose/edgetoedgepreviewlib/edge_to_edge_template.kt:221-229 | The status bar pads at most one side: start only for a Start cutout at the top, end only for an End cutout at the top, and nothing when the cutout is not at the top |
| OverlapCheck.NodeList.constructor | edge_to_edge_preview_check_lib/src/main/java/de/drick/compose/edgetoedge/test/overlap_check.kt:21 | The list starts empty |
| OverlapCheck.NodeList.Add | edge_to_edge_preview_check_lib/src/main/java/de/drick/compose/edgetoedge/test/overlap_check.kt:32 | Adding appends one node at the end |
| OverlapCheck.SearchChildrenInto | edge_to_edge_preview_check_lib/src/main/java/de/drick/compose/edgetoedge/test/overlap_check.kt:26-36 | The recursive search appends the matching strict descendants to the list, in pre-order |
| OverlapCheck.SearchChildren | edge_to_edge_preview_check_lib/src/main/java/de/drick/compose/edgetoedge/test/overlap_check.kt:19-24 | The search returns the matching strict descendants, in pre-order |
| OverlapCheck.SearchChildrenFinds | edge_to_edge_preview_check_lib/src/main/java/de/drick/compose/edgetoedge/test/overlap_check.kt:19-36 | A node is found iff it is a strict descendant that matches; the starting node itself is never found |
| OverlapCheck.VerticalRangeIsNearest | edge_to_edge_preview_check_lib/src/main/java/de/drick/compose/edgetoedge/test/overlap_check.kt:38-42 | The vertical search returns the range of the nearest node on the path to the root that has one, and nothing iff no node on the path has one |
| OverlapCheck.HorizontalRangeIsNearest | edge_to_edge_preview_check_lib/src/main/java/de/drick/compose/edgetoedge/test/overlap_check.kt:44-48 | The horizontal search returns the horizontal range of the nearest node on the path to the root that has one, and nothing iff none has |
| OverlapCheck.KeptSidesIff | edge_to_edge_preview_check_lib/src/main/java/de/drick/compose/edgetoedge/test/overlap_check.kt:58-76 | Top is checked unless vertical exclusion applies and the range is scrolled down; Bottom unless it can still scroll down; likewise Left and Right for the horizontal range |
| OverlapCheck.AllSidesWithoutExclusion | edge_to_edge_preview_check_lib/src/main/java/de/drick/compose/edgetoedge/test/overlap_check.kt:58-76 | Without exclusions, or without ranges, all four sides are checked |
| OverlapCheck.OverlapCalls | edge_to_edge_preview_check_lib/src/main/java/de/drick/compose/edgetoedge/test/overlap_check.kt:78-82 | The callback is made at most once per band |
| OverlapCheck.OverlapCallsMembers | edge_to_edge_preview_check_lib/src/main/java/de/drick/compose/edgetoedge/test/overlap_check.kt:78-82 | The callback receives a band and the node's rectangle iff that band overlaps the node |
| OverlapCheck.CheckedSides | edge_to_edge_preview_check_lib/src/main/java/de/drick/compose/edgetoedge/test/overlap_check.kt:58-76 | The side set `checkOverlap` builds is the kept-sides rule applied to the ranges the two searches find |
| OverlapCheck.CheckOverlap | edge_to_edge_preview_check_lib/src/main/java/de/drick/compose/edgetoedge/test/overlap_check.kt:50-83 | The callbacks are exactly the overlap calls for the bands of the kept sides, in band order |
| OverlapCheck.CheckOverlapBySide | edge_to_edge_preview_check_lib/src/main/java/de/drick/compose/edgetoedge/test/overlap_check.kt:50-83 | There is a callback for a side's band iff the side is kept, its inset is positive and its band overlaps the node; every callback comes from such a side |
| SemanticsNodeInfo.TagOf | edge_to_edge_test_lib/src/main/java/de/telekom/edgetoedgetestlib/semantics_node_info.kt:155-158 | A tag is printed iff the configuration holds a `TestTag` entry |
| SemanticsNodeInfo.NewIndentShape | edge_to_edge_test_lib/src/main/java/de/telekom/edgetoedgetestlib/semantics_node_info.kt:141-147 | Level 0 has no indent; below it the indent is the parent's indent followed by " \| " when a sibling follows and by three spaces otherwise |
| SemanticsNodeInfo.ScanSortsEntries | edge_to_edge_test_lib/src/main/java/de/telekom/edgetoedgetestlib/semantics_node_info.kt:212-248 | The loop skips the test tag and sorts each other entry into exactly one place: a property line, the unit list or the action list, in iteration order |
| SemanticsNodeInfo.AppendConfigInfo | edge_to_edge_test_lib/src/main/java/de/telekom/edgetoedgetestlib/semantics_node_info.kt:209-277 | The loop, then the unit list, the action list and the two markers are appended in that order |
| SemanticsNodeInfo.AppendProperty | edge_to_edge_test_lib/src/main/java/de/telekom/edgetoedgetestlib/semantics_node_info.kt:229-247 | A property line is a line break, the indent, the key's name, " = '", the value and a closing quote |
| SemanticsNodeInfo.AppendMarker | edge_to_edge_test_lib/src/main/java/de/telekom/edgetoedgetestlib/semantics_node_info.kt:266-276 | A marker line is written iff its flag is set |
| SemanticsNodeInfo.AppendListLine | edge_to_edge_test_lib/src/main/java/de/telekom/edgetoedgetestlib/semantics_node_info.kt:250-264 | A bracketed list line is written iff the list is not empty |
| SemanticsNodeInfo.AppendChildSummary | edge_to_edge_test_lib/src/main/java/de/telekom/edgetoedgetestlib/semantics_node_info.kt:165-187 | At the depth limit the count line is appended piece by piece |
| SemanticsNodeInfo.AppendChildCount | edge_to_edge_test_lib/src/main/java/de/telekom/edgetoedgetestlib/semantics_node_info.kt:172-176 | The child count reads "N children" for more than one, "1 child" for one, and nothing for none |
| SemanticsNodeInfo.AppendSiblingCount | edge_to_edge_test_lib/src/main/java/de/telekom/edgetoedgetestlib/semantics_node_info.kt:177-186 | The sibling count appears only at level 0 and only with siblings, after ", " only when children were counted |
| SemanticsNodeInfo.AppendConnector | edge_to_edge_test_lib/src/main/java/de/telekom/edgetoedgetestlib/semantics_node_info.kt:149-151 | The tree connector is written only below level 0 |
| SemanticsNodeInfo.AppendTag | edge_to_edge_test_lib/src/main/java/de/telekom/edgetoedgetestlib/semantics_node_info.kt:155-159 | The tag part is written only for a tagged node |
| SemanticsNodeInfo.AppendHeader | edge_to_edge_test_lib/src/main/java/de/telekom/edgetoedgetestlib/semantics_node_info.kt:149-159 | The header line is the connector, "Node #id at ", the bounds and the tag part |
| SemanticsNodeInfo.PrintToStringInner | edge_to_edge_test_lib/src/main/java/de/telekom/edgetoedgetestlib/semantics_node_info.kt:134-198 | The recursive dump appends the node's header, its configuration, then either the count line (at the depth limit) or each child after a line break |
| SemanticsNodeInfo.AppendChildren | edge_to_edge_test_lib/src/main/java/de/telekom/edgetoedgetestlib/semantics_node_info.kt:191-197 | The children loop appends every child's dump in the children's order |
| SemanticsNodeInfo.AppendChild | edge_to_edge_test_lib/src/main/java/de/telekom/edgetoedgetestlib/semantics_node_info.kt:194-196 | One child is a line break and then its dump, told whether a sibling follows |
| SemanticsNodeInfo.PrintToString | edge_to_edge_test_lib/src/main/java/de/telekom/edgetoedgetestlib/semantics_node_info.kt:122-132 | A node's text is its dump from level 0 with no indent and no following sibling |
| SemanticsNodeInfo.NodeTextStart | edge_to_edge_test_lib/src/main/java/de/telekom/edgetoedgetestlib/semantics_node_info.kt:149-152 | A dump starts with "Node #id at " at level 0 and with the indent and " \|-" below it |
| SemanticsNodeInfo.NodePiecesFirst | edge_to_edge_test_lib/src/main/java/de/telekom/edgetoedgetestlib/semantics_node_info.kt:149-152 | The first piece of a dump is the connector below level 0, and the node header otherwise |
| SemanticsNodeInfo.ChildrenInOrder | edge_to_edge_test_lib/src/main/java/de/telekom/edgetoedgetestlib/semantics_node_info.kt:191-197 | Below the depth limit child `i` is written after the children before it and before the children after it |
| SemanticsNodeInfo.DefaultDepthPrintsNodeOnly | edge_to_edge_test_lib/src/main/java/de/telekom/edgetoedgetestlib/semantics_node_info.kt:122-132 | With the default depth 0 a node is printed as header, configuration and count line, without its children |
| SemanticsNodeInfo.SummaryWording | edge_to_edge_test_lib/src/main/java/de/telekom/edgetoedgetestlib/semantics_node_info.kt:165-187 | The count line exists iff there are children, or siblings at level 0; it says "child" for one and "children" for more, singular for one sibling, with ", " only between the two counts |
| SemanticsNodeInfo.SummaryExample | edge_to_edge_test_lib/src/main/java/de/telekom/edgetoedgetestlib/semantics_node_info.kt:165-187 | Two children and one sibling at level 0 read "Has 2 children, 1 sibling" |
| SemanticsNodeInfo.ConfigPiecesByFilter | edge_to_edge_test_lib/src/main/java/de/telekom/edgetoedgetestlib/semantics_node_info.kt:209-277 | The configuration text is the property lines of the listed entries, the unit keys, the action keys and the two markers, each list in iteration order |
| SemanticsNodeInfo.ScanLinesEnd | edge_to_edge_test_lib/src/main/java/de/telekom/edgetoedgetestlib/semantics_node_info.kt:247 | The property lines end with the closing quote of the last value |
| SemanticsNodeInfo.MarkersIffFlags | edge_to_edge_test_lib/src/main/java/de/telekom/edgetoedgetestlib/semantics_node_info.kt:266-276 | The configuration text ends with the clear marker iff the node clears semantics |
| SemanticsNodeInfo.PrintCollection | edge_to_edge_test_lib/src/main/java/de/telekom/edgetoedgetestlib/semantics_node_info.kt:105-120 | The collection text is built from the numbered dumps of the nodes, in collection order |
| SemanticsNodeInfo.AppendEntry | edge_to_edge_test_lib/src/main/java/de/telekom/edgetoedgetestlib/semantics_node_info.kt:109-116 | One entry is its label, its dump, and a line break unless it is the last |
| SemanticsNodeInfo.EntryText | edge_to_edge_test_lib/src/main/java/de/telekom/edgetoedgetestlib/semantics_node_info.kt:109-116 | An entry's text is its label and its dump, followed by a line break iff it is not the last |
| SemanticsNodeInfo.CollectionTextJoin | edge_to_edge_test_lib/src/main/java/de/telekom/edgetoedgetestlib/semantics_node_info.kt:105-120 | The collection text is the numbered dumps joined by single line breaks |
| SemanticsNodeInfo.SingleNodeCollection | edge_to_edge_test_lib/src/main/java/de/telekom/edgetoedgetestlib/semantics_node_info.kt:109 | A single node is printed without a number: the collection text is that node's dump |
| SemanticsNodeInfo.UnmergedHeaderLine | edge_to_edge_test_lib/src/main/java/de/telekom/edgetoedgetestlib/semantics_node_info.kt:76 | The interaction header is a single line that ends with its only line break |
| SemanticsNodeInfo.PrintInteraction | edge_to_edge_test_lib/src/main/java/de/telekom/edgetoedgetestlib/semantics_node_info.kt:71-78 | An interaction's text is the header followed by the node's dump at the given depth |
| SemanticsNodeInfo.PrintInteractionCollection | edge_to_edge_test_lib/src/main/java/de/telekom/edgetoedgetestlib/semantics_node_info.kt:92-103 | A collection's text is the header followed by "There were 0 nodes found!" when empty, and by the joined numbered dumps otherwise |
| SemanticsNodeInfo.ErrorText | edge_to_edge_test_lib/src/main/java/de/telekom/edgetoedgetestlib/semantics_node_info.kt:40-57 | The failure message is the error, "Semantics of the node:", the node's dump and "Selector used: (<selector>)", each ending its own line |
| SemanticsNodeInfo.BuildGeneralErrorMessage | edge_to_edge_test_lib/src/main/java/de/telekom/edgetoedgetestlib/semantics_node_info.kt:40-57 | `buildGeneralErrorMessage` returns that four-line message for the node's default-depth dump |
| WindowInsetsTest.AnchorOnFirstChildChain | edge_to_edge_test_lib/src/main/java/de/drick/compose/edgetoedgetestlib/window_insets_test.kt:56-62 | The anchor search returns the anchor of the first node on the first-child chain that carries one, and nothing iff none does |
| WindowInsetsTest.LaterChildrenIgnored | edge_to_edge_test_lib/src/main/java/de/drick/compose/edgetoedgetestlib/window_insets_test.kt:57-60 | Because of the `return` inside `forEach`, only the first child of each node is ever searched |
| WindowInsetsTest.HorizontalFinderReturnsVerticalRange | edge_to_edge_test_lib/src/main/java/de/drick/compose/edgetoedgetestlib/window_insets_test.kt:70-74 | A concrete tree on which the library's horizontal finder returns a vertical range; the correct finder returns nothing |
| WindowInsetsTest.HorizontalFinderAsWrittenDelegates | edge_to_edge_test_lib/src/main/java/de/drick/compose/edgetoedgetestlib/window_insets_test.kt:70-74 | The library's horizontal finder agrees with the correct one on the node itself, and above the node it returns what the vertical finder returns |
| WindowInsetsTest.AnyOverlapIff | edge_to_edge_test_lib/src/main/java/de/drick/compose/edgetoedgetestlib/window_insets_test.kt:87-95 | The `forEach` with `return@filter true` accepts an entry iff one of its bands overlaps the node's bounds |
| WindowInsetsTest.CheckOverlapSpec | edge_to_edge_test_lib/src/main/java/de/drick/compose/edgetoedgetestlib/window_insets_test.kt:77-96 | The overlap list is the sublist of the recorded entries that are visible, share a type bit and have an overlapping band, in the recorded order |
| WindowInsetsTest.AnyPositiveEdgeIff | edge_to_edge_test_lib/src/main/java/de/drick/compose/edgetoedgetestlib/window_insets_test.kt:388-393 | `insetList.any { ... }` holds iff some entry has a positive edge ignoring visibility |
| WindowInsetsTest.IsNotEmptyIff | edge_to_edge_test_lib/src/main/java/de/drick/compose/edgetoedgetestlib/window_insets_test.kt:386-393 | The recorded insets count as present iff the window has a positive width and height and some entry has a positive edge ignoring visibility |
| WindowInsetsTest.TestSidesAgreeWithKeptSides | edge_to_edge_test_lib/src/main/java/de/drick/compose/edgetoedgetestlib/window_insets_test.kt:271-283 | The test library's add-based side rule selects the same sides as the check library's remove-based rule, for vertical exclusion alone |
| WindowInsetsTest.SelectSides | edge_to_edge_test_lib/src/main/java/de/drick/compose/edgetoedgetestlib/window_insets_test.kt:271-283 | The loop's `sides` and `verticalScrollPosition` are the side rule and the scroll value for the range the vertical search finds |
| WindowInsetsTest.TypeNames | edge_to_edge_test_lib/src/main/java/de/drick/compose/edgetoedgetestlib/window_insets_test.kt:310-311 | When naming succeeds, there is one name per overlapping entry |
| WindowInsetsTest.TypeNamesOk | edge_to_edge_test_lib/src/main/java/de/drick/compose/edgetoedgetestlib/window_insets_test.kt:310-311 | Entries that each carry one of the eight type bits are all named, each by the bitmask naming of its own type |
| WindowInsetsTest.RunStops | edge_to_edge_test_lib/src/main/java/de/drick/compose/edgetoedgetestlib/window_insets_test.kt:311 | Once a naming exception has ended the loop, the remaining nodes change nothing |
| WindowInsetsTest.TestWindowInsets | edge_to_edge_test_lib/src/main/java/de/drick/compose/edgetoedgetestlib/window_insets_test.kt:223-329 | The outcome and screenshots equal `TestResult`: `NoSuchElementException` for no nodes; `IllegalStateException` with the full `trimMargin` anchor hint (edge_to_edge_test_lib/src/main/java/de/drick/compose/edgetoedgetestlib/window_insets_test.kt:333-342) when no anchor is found, or with the full edge-to-edge hint (edge_to_edge_test_lib/src/main/java/de/drick/compose/edgetoedgetestlib/window_insets_test.kt:253-264) for empty insets under the complaint flag; `IllegalArgumentException` from a naming failure; an `AssertionError` carrying the reports when any were written; otherwise a pass |
| WindowInsetsTest.ReportNode | edge_to_edge_test_lib/src/main/java/de/drick/compose/edgetoedgetestlib/window_insets_test.kt:284-325 | The loop body for one node has the effect of `NodeStep`: when the node overlaps, the node's report is appended, and a screenshot is requested if a base name is set. The screenshot holds only the bands that overlap the node (edge_to_edge_test_lib/src/main/java/de/drick/compose/edgetoedgetestlib/window_insets_test.kt:290-295) |
| WindowInsetsTest.AppendReportTail | edge_to_edge_test_lib/src/main/java/de/drick/compose/edgetoedgetestlib/window_insets_test.kt:309-324 | After the general message and its line break come the type line, the scroll position line when there is one, the device line, the screenshot line when there is a file, and an empty line |
| WindowInsetsTest.AppendPosition | edge_to_edge_test_lib/src/main/java/de/drick/compose/edgetoedgetestlib/window_insets_test.kt:313-315 | The scroll position line is written iff a vertical position was recorded |
| WindowInsetsTest.AppendScreenshotLine | edge_to_edge_test_lib/src/main/java/de/drick/compose/edgetoedgetestlib/window_insets_test.kt:318-323 | The screenshot line is written iff there is a file name |
| WindowInsetsTest.ReportNotEmpty | edge_to_edge_test_lib/src/main/java/de/drick/compose/edgetoedgetestlib/window_insets_test.kt:308-324 | Every node report contains a line break, so it is never empty |
| WindowInsetsTest.StepKeepsGoing | edge_to_edge_test_lib/src/main/java/de/drick/compose/edgetoedgetestlib/window_insets_test.kt:284-325 | With known types one node never stops the loop, and the message stays empty iff it was empty and the node does not overlap |
| WindowInsetsTest.RunMessageEmptyIff | edge_to_edge_test_lib/src/main/java/de/drick/compose/edgetoedgetestlib/window_insets_test.kt:269-327 | With known types the loop never stops early, and its message is empty iff none of the nodes so far overlaps |
| WindowInsetsTest.TestFailsIffSomeNodeOverlaps | edge_to_edge_test_lib/src/main/java/de/drick/compose/edgetoedgetestlib/window_insets_test.kt:328 | Once the anchor is found and the emptiness check passes, with known types the test throws an `AssertionError` iff some node overlaps, and passes otherwise |
| WindowInsetsTest.ComplainsAboutEmptyInsets | edge_to_edge_test_lib/src/main/java/de/drick/compose/edgetoedgetestlib/window_insets_test.kt:251-267 | With the complaint switched on, empty recorded insets throw `IllegalStateException` with the full multi-line edge-to-edge hint, including its TODO and example lines. No node is checked and no screenshot is taken |
| WindowInsetsTest.NoScreenshotWithoutBaseName | edge_to_edge_test_lib/src/main/java/de/drick/compose/edgetoedgetestlib/window_insets_test.kt:296-307 | Without a screenshot base name the loop asks for no screenshot |
| WindowInsetsTest.TestTakesNoScreenshot | edge_to_edge_test_lib/src/main/java/de/drick/compose/edgetoedgetestlib/window_insets_test.kt:296-307 | Without a screenshot base name the whole test takes no screenshot |
| LegacyWindowInsetsTest.TraversalGroupIsNearest | edgetoedgepreview/src/androidTest/java/de/drick/compose/edgetoedgepreview/window_insets_test.kt:178-187 | `findTraversalGroupNode` returns the nearest traversal group on the path to the root, with its own ancestors, and nothing iff no node on the path is a group |
| LegacyWindowInsetsTest.LegacySidesRule | edgetoedgepreview/src/androidTest/java/de/drick/compose/edgetoedgepreview/window_insets_test.kt:189-201 | Left and Right are always checked; Top iff there is no group range or it is scrolled to the top; Bottom iff there is no group range or it is scrolled to the end |
| LegacyWindowInsetsTest.ShotBoundsMembers | edgetoedgepreview/src/androidTest/java/de/drick/compose/edgetoedgepreview/window_insets_test.kt:204-212 | A band is drawn in a legacy screenshot iff it is a band of the checked sides of one of the overlapping entries |
| LegacyWindowInsetsTest.FilteredShotBounds | edgetoedgepreview/src/androidTest/java/de/drick/compose/edgetoedgepreview/window_insets_test.kt:204-212 | The test library's screenshot bands (edge_to_edge_test_lib/src/main/java/de/drick/compose/edgetoedgetestlib/window_insets_test.kt:290-295) are exactly the legacy bands that overlap the node, in the same order |
| LegacyWindowInsetsTest.ShotBoundsUnfiltered | edgetoedgepreview/src/androidTest/java/de/drick/compose/edgetoedgepreview/window_insets_test.kt:140-145 | Example: an entry with left and top insets of 10 in a 100 x 100 window, and a node touched only by the top band. The legacy screenshot draws both bands, and the test library's draws only the top one |
| LegacyWindowInsetsTest.SelectLegacySides | edgetoedgepreview/src/androidTest/java/de/drick/compose/edgetoedgepreview/window_insets_test.kt:189-201 | The loop's `sides` and `scrollPosition` follow that rule, with 0 as the default position |
| LegacyWindowInsetsTest.LegacyRunStops | edgetoedgepreview/src/androidTest/java/de/drick/compose/edgetoedgepreview/window_insets_test.kt:225 | Once a naming exception has ended the loop, the remaining nodes change nothing |
| LegacyWindowInsetsTest.AssertAllWindowInsets | edgetoedgepreview/src/androidTest/java/de/drick/compose/edgetoedgepreview/window_insets_test.kt:164-234 | The outcome and screenshots equal `AssertAllResult`, in this order of failure: an unknown asserted type, no nodes, a missing anchor, a naming failure in the loop. Otherwise an `AssertionError` if any report was written, and a pass if none was. Every overlapping node's screenshot holds all bands of its checked sides (`ShotBounds`) |
| LegacyWindowInsetsTest.CheckAllNodes | edgetoedgepreview/src/androidTest/java/de/drick/compose/edgetoedgepreview/window_insets_test.kt:175-231 | The loop's screenshots and naming failure are those of `LegacyRun` over all nodes, and so is its message when no failure occurs. Each screenshot draws every band of the checked sides of the overlapping entries, unfiltered |
| LegacyWindowInsetsTest.LegacyReportNode | edgetoedgepreview/src/androidTest/java/de/drick/compose/edgetoedgepreview/window_insets_test.kt:188-229 | The loop body for one node has the effect of `LegacyStep`. The screenshot (`NodeShot`, all bands of the checked sides) is taken before the report, and the report follows unless naming fails |
| LegacyWindowInsetsTest.LegacyReportNotEmpty | edgetoedgepreview/src/androidTest/java/de/drick/compose/edgetoedgepreview/window_insets_test.kt:216-228 | Every node report contains a line break, so it is never empty |
| LegacyWindowInsetsTest.LegacyStepKeepsGoing | edgetoedgepreview/src/androidTest/java/de/drick/compose/edgetoedgepreview/window_insets_test.kt:202-229 | With known types one node never stops the loop; the message stays empty iff it was empty and the node does not overlap; one screenshot is added iff the node overlaps |
| LegacyWindowInsetsTest.LegacyRunIff | edgetoedgepreview/src/androidTest/java/de/drick/compose/edgetoedgepreview/window_insets_test.kt:175-231 | With known types the loop never stops early, and its message is empty iff none of the nodes so far overlaps |
| LegacyWindowInsetsTest.LegacyRunShots | edgetoedgepreview/src/androidTest/java/de/drick/compose/edgetoedgepreview/window_insets_test.kt:213-215 | With known types the loop takes one screenshot per overlapping node |
| LegacyWindowInsetsTest.UnknownTypeThrowsFirst | edgetoedgepreview/src/androidTest/java/de/drick/compose/edgetoedgepreview/window_insets_test.kt:168 | An asserted type with none of the eight bits throws `IllegalArgumentException` before anything else happens |
| LegacyWindowInsetsTest.AssertAllFailsIffSomeNodeOverlaps | edgetoedgepreview/src/androidTest/java/de/drick/compose/edgetoedgepreview/window_insets_test.kt:232 | With a known asserted type, an anchor and known recorded types: the assertion throws `AssertionError` iff some node overlaps, passes otherwise, and takes one screenshot per overlapping node |
| LegacyWindowInsetsTest.AssertWindowInsets | edgetoedgepreview/src/androidTest/java/de/drick/compose/edgetoedgepreview/window_insets_test.kt:123-162 | The outcome and screenshot equal `AssertResult`, checked in this order: the type is named, the anchor is found, overlap is checked on all four sides, the screenshot is taken with every band of the overlapping entries (edgetoedgepreview/src/androidTest/java/de/drick/compose/edgetoedgepreview/window_insets_test.kt:140-145), and then the message is built |
| LegacyWindowInsetsTest.BuildSingleMessage | edgetoedgepreview/src/androidTest/java/de/drick/compose/edgetoedgepreview/window_insets_test.kt:149-155 | The message is the general message, a line break, the type line and the screenshot line |
| LegacyWindowInsetsTest.AssertThrowsIffOverlap | edgetoedgepreview/src/androidTest/java/de/drick/compose/edgetoedgepreview/window_insets_test.kt:138-157 | With a known type, an anchor and known recorded types, the assertion throws `AssertionError` iff the node overlaps an inset on any side, and a screenshot is taken exactly then |
| LegacyWindowInsetsTest.AssertWindowInsetsWithSelector | edgetoedgepreview/src/androidTest/java/de/drick/compose/edgetoedgepreview/window_insets_test.kt:150 | `assertWindowInsets` with its general message given by `buildGeneralErrorMessage(errorMessageOnFail, this, node)` (`SemanticsNodeInfo.GeneralErrorMessage`) |
| LegacyWindowInsetsTest.AssertAllWindowInsetsWithSelector | edgetoedgepreview/src/androidTest/java/de/drick/compose/edgetoedgepreview/window_insets_test.kt:217-223 | `assertAllWindowInsets` with each node's general message given by `buildGeneralErrorMessage("", this, node)` |
| ComposeLayout.Half | edge_to_edge_preview/src/main/java/de/drick/compose/edgetoedgepreview/layout_experiments/split_layout.kt:219-226 | Kotlin's `/ 2` truncates toward zero: the remainder is 0 or 1 and has the sign of the operand |
| ComposeLayout.HalfTruncates | edge_to_edge_preview/src/main/java/de/drick/compose/edgetoedgepreview/layout_experiments/split_layout.kt:225 | On a negative odd number the truncating half differs from Dafny's Euclidean `/` |
| SplitLayout.MutablePaddingValues.constructor | edge_to_edge_preview/src/main/java/de/drick/compose/edgetoedgepreview/layout_experiments/split_layout.kt:312-316 | All four paddings start at 0 |
| SplitLayout.PaddingFollowsDirection | edge_to_edge_preview/src/main/java/de/drick/compose/edgetoedgepreview/layout_experiments/split_layout.kt:318-323 | Left is start and right is end left-to-right, and they swap right-to-left |
| SplitLayout.SplitSimple | edge_to_edge_preview/src/main/java/de/drick/compose/edgetoedgepreview/layout_experiments/split_layout.kt:161-184 | The two panes tile the width, and the second pane is 100 px wide |
| SplitLayout.SplitSimpleNonNegative | edge_to_edge_preview/src/main/java/de/drick/compose/edgetoedgepreview/layout_experiments/split_layout.kt:166-178 | From a width of 100 px on, neither pane gets a negative width |
| SplitLayout.MeasureSplitSimple | edge_to_edge_preview/src/main/java/de/drick/compose/edgetoedgepreview/layout_experiments/split_layout.kt:161-184 | The measure block gives the panes of the simple split |
| SplitLayout.SplitPointHalves | edge_to_edge_preview/src/main/java/de/drick/compose/edgetoedgepreview/layout_experiments/split_layout.kt:219-228 | Without insets the second pane is as wide as the first or one pixel wider |
| SplitLayout.SplitPointBetweenInsets | edge_to_edge_preview/src/main/java/de/drick/compose/edgetoedgepreview/layout_experiments/split_layout.kt:219-228 | With insets that fit, the split point lies between the left inset and the right inset |
| SplitLayout.SplitVertical | edge_to_edge_preview/src/main/java/de/drick/compose/edgetoedgepreview/layout_experiments/split_layout.kt:187-247 | The two panes tile the width, split at the middle of the area the insets leave |
| SplitLayout.MeasureSplitVertical | edge_to_edge_preview/src/main/java/de/drick/compose/edgetoedgepreview/layout_experiments/split_layout.kt:214-246 | The measure block gives the vertical split; the first pane consumes the second's width at its end, the second consumes the first's width at its start, and nothing else changes |
| SplitLayout.ConsumedSpansOtherPane | edge_to_edge_preview/src/main/java/de/drick/compose/edgetoedgepreview/layout_experiments/split_layout.kt:229-230 | Left-to-right, each pane's consumed padding on its inner side is exactly the other pane's extent |
| SplitLayout.SplitHorizontal | edge_to_edge_preview/src/main/java/de/drick/compose/edgetoedgepreview/layout_experiments/split_layout.kt:249-310 | The two panes tile the height, split at the middle of the area the insets leave |
| SplitLayout.MeasureSplitHorizontal | edge_to_edge_preview/src/main/java/de/drick/compose/edgetoedgepreview/layout_experiments/split_layout.kt:277-309 | The measure block gives the horizontal split; the first pane consumes the second's height at its bottom, the second consumes the first's height at its top, and nothing else changes |
| SmartInsets.MutableFixedPaddingValues.constructor | edge_to_edge_preview/src/main/java/de/drick/compose/edgetoedgepreview/layout_experiments/smart_window_insets.kt:219-231 | All four paddings start at 0 |
| SmartInsets.FixedPaddingIgnoresDirection | edge_to_edge_preview/src/main/java/de/drick/compose/edgetoedgepreview/layout_experiments/smart_window_insets.kt:205-231 | Left and right paddings are the stored values in both layout directions, for `MutableFixedPaddingValues` and for `DeferredFixedPaddingValues`, whose getters are the same |
| SmartInsets.MutableFixedIntWindowInsets.constructor | edge_to_edge_preview/src/main/java/de/drick/compose/edgetoedgepreview/layout_experiments/smart_window_insets.kt:233-244 | All four insets start at 0 |
| SmartInsets.FixedInsetsIgnoreDirection | edge_to_edge_preview/src/main/java/de/drick/compose/edgetoedgepreview/layout_experiments/smart_window_insets.kt:233-244 | Left and right insets are the stored values in both layout directions |
| SmartInsets.NewFixedInsets | edge_to_edge_preview/src/main/java/de/drick/compose/edgetoedgepreview/layout_experiments/smart_window_insets.kt:233-244 | A fresh holder reports no insets at all |
| SmartInsets.ConsumedInsets | edge_to_edge_preview/src/main/java/de/drick/compose/edgetoedgepreview/layout_experiments/smart_window_insets.kt:101-110 | What a component consumes is never negative on any side |
| SmartInsets.ConsumedTilesWindow | edge_to_edge_preview/src/main/java/de/drick/compose/edgetoedgepreview/layout_experiments/smart_window_insets.kt:101-110 | For a component inside the window, the consumed left and right plus its width make the window's width, and likewise for the height |
| SmartInsets.FullWindowConsumesNothing | edge_to_edge_preview/src/main/java/de/drick/compose/edgetoedgepreview/layout_experiments/smart_window_insets.kt:101-110 | A component filling the whole window consumes nothing |
| SmartInsets.SmartSize | edge_to_edge_preview/src/main/java/de/drick/compose/edgetoedgepreview/layout_experiments/smart_window_insets.kt:95-99 | More than one child fails with "Only one child composable allowed!"; no child gives 0 x 0; one child gives its size |
| SmartInsets.MeasureSmartInsetsConsumer | edge_to_edge_preview/src/main/java/de/drick/compose/edgetoedgepreview/layout_experiments/smart_window_insets.kt:84-115 | The result is `SmartSize` of the children. Once the node is positioned and measuring succeeded, the holder holds `ConsumedInsets` for that position and size. On failure, or without a position, the holder is unchanged |
| SmartScaffold.ContentConstraints | edge_to_edge_preview/src/main/java/de/drick/compose/edgetoedgepreview/layout_experiments/smart_scaffold.kt:100-104 | The content's largest height is what the two bars leave of the layout's height; everything else is kept |
| SmartScaffold.Scaffold | edge_to_edge_preview/src/main/java/de/drick/compose/edgetoedgepreview/layout_experiments/smart_scaffold.kt:92-116 | Top bar at the top edge, content right below it with room up to the bottom bar, bottom bar against the bottom edge; the bars are measured with the incoming constraints |
| SmartScaffold.ContentAboveBottomBar | edge_to_edge_preview/src/main/java/de/drick/compose/edgetoedgepreview/layout_experiments/smart_scaffold.kt:100-115 | Content that respects its constraints ends at or above the bottom bar |
| SmartScaffold.MeasureScaffold | edge_to_edge_preview/src/main/java/de/drick/compose/edgetoedgepreview/layout_experiments/smart_scaffold.kt:92-116 | The measure block gives the scaffold; the top bar's bottom and the content's top consume the top bar's height, the content's bottom and the bottom bar's top consume the bottom bar's height, and nothing else changes |

## Left out

- Floating point: rectangle coordinates, scroll positions and `positionInWindow()` are whole pixels. `rectToShortString` prints each coordinate as its integer followed by ".0", which matches Kotlin's `Float.toString` only for whole values below 10^7.
- Configuration values in the dump are given as their printed strings, because their `toString()` belongs to the framework.
- The runtime type checks on semantics values are replaced by a kind on each value: action or function, `Unit`, plain `AnnotatedString`, or other. The test tag is a key of its own, and every other key is identified by its name.
- Screenshots: capturing a screen, drawing the overlap bitmap and writing files are I/O. The tests record the file names they would capture, and `uriOf` is a function parameter.
- Node fetching: `fetchSemanticsNode(s)` and its failures belong to the test framework. The nodes, the tree and the recorded insets are inputs.
- `buildGeneralErrorMessage` models the message layout; the `SemanticsNodeInteraction` selector description is an input string.
- The preview app's instrumented tests call a `buildGeneralErrorMessage` that is defined in neither source file of that module. It is taken to be the test library's layout (`SemanticsNodeInfo.GeneralErrorMessage`), which the `...WithSelector` methods plug in.
- The device name (`Build.MODEL`, `Build.VERSION.RELEASE`) is an input string.
- `recordInsets`: the readings of `WindowInsetsCompat`, the window size and the navigation-mode setting are parameters, because they come from Android.
- The JSON encoding of recordings (kotlinx serialization) is left out. Only the surrogate conversion in both directions is modelled.
- `WindowInsetsInjector` (edge_to_edge_preview_lib/src/main/java/de/drick/compose/edgetoedgepreviewlib/insets_builder.kt:76-112) and `ViewInsetInjector` (edge_to_edge_preview_lib/src/main/java/de/drick/compose/edgetoedgepreviewlib/insets_injector_legacy_view.kt:71-104) dispatch insets to Android views and use a hidden API. They are not part of this model.
- The template's composables that draw the bars (edge_to_edge_preview_lib/src/main/java/de/drick/compose/edgetoedgepreviewlib/edge_to_edge_template.kt:200-290) are UI. Only the status bar's cutout padding is modelled.
- The system-gesture regions are not derived by the template code, so the model does not add them either.
- The camera cutout's placement follows the code at edge_to_edge_preview_lib/src/main/java/de/drick/compose/edgetoedgepreviewlib/edge_to_edge_template.kt:146-151. In landscape the cutout is on the left unless the orientation is inverted, and then it is on the right. The Start/End cutout padding of the status bar assumes a left-to-right layout.
- `Dp.roundToPx` is the identity, because the density is 1.
- Compose layout internals are not modelled. Measuring is an input (measured sizes, or a function from constraints to size); constraint validity checks are not applied, and neither is the right-to-left mirroring of `placeRelative`.
- `SplitLayoutVerticalNaive` (edge_to_edge_preview/src/main/java/de/drick/compose/edgetoedgepreview/layout_experiments/split_layout.kt:117-130) only forwards the constraints and computes nothing, so it is left out.
- `getWindowSize` and `windowSize` (edge_to_edge_preview/src/main/java/de/drick/compose/edgetoedgepreview/layout_experiments/smart_window_insets.kt:117-137) read the framework's window metrics. The window size is a parameter.
- `SmartInsetsProvider`, `consumeNonOverlappingInsets` and `windowInsetsPaddingNonOverlapping` (edge_to_edge_preview/src/main/java/de/drick/compose/edgetoedgepreview/layout_experiments/smart_window_insets.kt:41-83, edge_to_edge_preview/src/main/java/de/drick/compose/edgetoedgepreview/layout_experiments/smart_window_insets.kt:144-203) wire the holders into the composition through modifiers. Only the arithmetic they feed is modelled.
- `DeferredFixedPaddingValues` (edge_to_edge_preview/src/main/java/de/drick/compose/edgetoedgepreview/layout_experiments/smart_window_insets.kt:205-217) has the same fields and getters as `MutableFixedPaddingValues`, which models both.
- The `toString` of the padding and inset holders is left out.
- Integer overflow: Kotlin `Int` arithmetic in the layouts and the band computation is unbounded here. Window and inset sizes are far below 2^31.

## Findings

| source | as written | input that shows it | evidently intended | confidence | as-written member | corrected member |
|---|---|---|---|---|---|---|
| edge_to_edge_test_lib/src/main/java/de/drick/compose/edgetoedgetestlib/window_insets_test.kt:70-74 | `findHorizontalScrollAxisRange` falls back to `findVerticalScrollAxisRange` on the parent | a node with no scroll ranges under a parent with only a vertical range (5, 10): the horizontal finder returns (5, 10) | the ancestors are searched with the horizontal finder, as in edge_to_edge_preview_check_lib/src/main/java/de/drick/compose/edgetoedge/test/overlap_check.kt:44-48 | not executed | WindowInsetsTest.FindHorizontalScrollAxisRangeAsWritten, shown by WindowInsetsTest.HorizontalFinderReturnsVerticalRange | OverlapCheck.FindHorizontalScrollAxisRange, proved by OverlapCheck.HorizontalRangeIsNearest |
