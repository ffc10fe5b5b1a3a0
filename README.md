# blenderscripts core, modelled in Dafny

This project models the deterministic logic inside the kostex/blenderscripts
Blender add-ons: the part that sits between calls into the host (Blender's
`bpy`/`bmesh` API, the file system and the renderer). Host effects become
inputs or outputs:

- file contents, directory listings and existence checks become parameters;
- the `float(...)`/`int(...)` conversions become parameters returning `Option`;
- meshes become lists of vertices and index faces;
- UI layouts become lists of items.

Python exceptions are modelled as `Result.Err(kind)`. The kind is the
exception Python raises first in evaluation order.

One module per add-on file:

- `XPlaneImport`: the X-Plane OBJ8 line parser.
  - Keywords handled: VT, IDX/IDX10, ANIM_begin/trans/end and TRIS.
  - Triangle grouping, mesh naming and the texture-path fallback.
- `RenderSkip`: "render and skip".
  - Sampled animation values give the set of still frames.
  - Each frame is then rendered or copied from the previous image.
- `SelectBuffer`: the persistent selection buffer.
  - Union, difference, symmetric difference, intersection, set and clear.
  - Reselection of the result.
- `SvgExport`: the colour clamp, the `#RRGGBB` encoding, and the SVG path
  string. The path uses moveto, cubic curveto and closepath (section 8.3 of
  SVG 1.1).
- `Tools`: the function-plot quad grid, the object and cylinder lattices,
  the polar array angles, the clock numbers, and the unique material list.
- `CsvStrip`, `KmlToXyz` and `GeoToXyz`: the KML and GEO track importers.
  - `CsvStrip` holds what both share: the file-list refresh, the row loop
    that makes a ground vertex and an elevated vertex per row, and the
    quad strip.
  - The two importer modules hold the column layout and altitude rule of
    each format.
- `Bottle`: the arithmetic and seed profiles of the bottle/cap generator.
  - Thread pitch, top height and phase.
  - Which faces the skip option removes.
  - The thickness guard and cap enlargement.
  - Rim flattening and profile chains.
  - When welding runs.
- `RenderSlot`: the eight-slot render ring and its button row.
- `ImageFontPaths`: Remove Slashdots (one pass that deletes `../`), the
  search/replace rewrite, the `<builtin>` font guard and the panel.
- `SgiLogo`: the 18-corner logo outline and its closed edge loop.
- `LibraryImportObj`: the `.obj` asset menu.
  - The importer-entry filter.
  - The submenu id round trip.
  - Submenu registration into `folderDict`, and the top menu.
- `Common`: the error kinds, `Result`/`Option`, 3-vectors, and models of the
  Python string and sequence built-ins used above (`str.zfill`, `split`,
  slicing, `rfind` and `'%04d'`).

Code that changes state step by step is modelled as methods with loops. Each
method is proved equal to a specification function. The properties are then
proved about those functions. This applies to:

- the parser loop, the still-frame and render loops;
- the grid, polar and clock loops;
- the importer row loops;
- the bottle face removal;
- the slot check, the path rewrites, the outline loop and the menu drawing.

Objects whose fields the add-on updates in place are classes:

- `SelectBuffer.Buffer`;
- `RenderSkip.Scene`;
- `RenderSlot.SlotState`;
- `CsvStrip.FileList`;
- `Bottle.Operator`, whose `tt` property the guard reassigns;
- `LibraryImportObj.Library`, holding `folderDict`.

Element selection flags and image/font paths are arrays.

## Model

| member | source | states |
|---|---|---|
| XPlaneImport.Tokens | XPlaneImport-master/XP_import.py:125 | `str.split()` yields only non-empty tokens free of every character `str.isspace` accepts, ASCII and Unicode spaces alike |
| XPlaneImport.TokensOfJoin | XPlaneImport-master/XP_import.py:125 | splitting tokens joined by spaces gives back exactly those tokens |
| XPlaneImport.SplitExtRoundTrip | XPlaneImport-master/XP_import.py:133 | `os.path.splitext` parts concatenate back to the name, and the extension is empty or a dot-started, slash-free suffix |
| XPlaneImport.TexturePathShape | XPlaneImport-master/XP_import.py:129-133 | a texture resolves to dirname + "/" + name when that path exists; otherwise to the same directory, the name's stem and ".dds" |
| XPlaneImport.Ints | XPlaneImport-master/XP_import.py:193 | on success, one integer per token, each the conversion of its token |
| XPlaneImport.IntsOk | XPlaneImport-master/XP_import.py:193 | the conversion fails iff some token is not an integer |
| XPlaneImport.Run | XPlaneImport-master/XP_import.py:100-226 | the line loop computes exactly the functional import: the state after all lines, then meshes from the recorded TRIS lists |
| XPlaneImport.StepLine | XPlaneImport-master/XP_import.py:124-220 | the effect of one tokenised line: the specification the loop body is proved against; its cases are stated by the line lemmas below |
| XPlaneImport.TexturePath | XPlaneImport-master/XP_import.py:130-133 | the file a texture line loads: next to the .obj file, or its stem with ".dds" when that file is missing; shape proved by TexturePathShape |
| XPlaneImport.Triples | XPlaneImport-master/XP_import.py:224 | `zip(*[iter(obj)]*3)`: the specification TriplesSpec characterises |
| XPlaneImport.Import | XPlaneImport-master/XP_import.py:100-226 | the whole import: every line in order, then one mesh per TRIS record; Run is proved equal to it |
| XPlaneImport.ReadLine | XPlaneImport-master/XP_import.py:124-220 | one pass of the line loop has exactly the effect of one line on the parser state, including the IndexError/ValueError cases and the RuntimeError of a texture Blender cannot load |
| XPlaneImport.UnhandledLineChangesNothing | XPlaneImport-master/XP_import.py:124-127 | an empty line, or one whose keyword is not handled, leaves every list, counter and the ANIM stack unchanged |
| XPlaneImport.VTAppendsVertex | XPlaneImport-master/XP_import.py:177-190 | VT appends vertex (x, -z, y), normal (nx, -nz, ny) and uv (u, v), and nothing else changes |
| XPlaneImport.ShortVTFails | XPlaneImport-master/XP_import.py:177-190 | a VT line with fewer than nine tokens raises an error |
| XPlaneImport.IdxAppendsIndices | XPlaneImport-master/XP_import.py:192-193 | IDX/IDX10 append every remaining token as an integer, in order, to the flat index list; nothing else changes |
| XPlaneImport.AnimBeginPushes | XPlaneImport-master/XP_import.py:195-197 | ANIM_begin increments the nesting and pushes a zero translation |
| XPlaneImport.AnimTransSetsTop | XPlaneImport-master/XP_import.py:199-206 | ANIM_trans overwrites the stack slot at the nesting index with (t1, -t3, t2), adds it to the running origin and sets the flag |
| XPlaneImport.AnimTransOnEmptyStackFails | XPlaneImport-master/XP_import.py:204-210 | after more ANIM_end than ANIM_begin lines, ANIM_trans indexes outside the stack and raises IndexError |
| XPlaneImport.AnimEndPops | XPlaneImport-master/XP_import.py:208-212 | ANIM_end pops the top translation, subtracts it from the origin and decrements the depth; it clears the flag at depth 0; it raises IndexError on an empty stack |
| XPlaneImport.StepKeepsInvariants | XPlaneImport-master/XP_import.py:177-212 | each successful line keeps the stack one longer than the nesting, and keeps vertex, normal and uv lists of equal length |
| XPlaneImport.RunKeepsInvariants | XPlaneImport-master/XP_import.py:124-220 | the same two invariants hold after any number of lines |
| XPlaneImport.ImportedListsAligned | XPlaneImport-master/XP_import.py:106-190 | a successful import has equally many vertices, normals and uvs |
| XPlaneImport.BalancedAnimRestores | XPlaneImport-master/XP_import.py:195-212 | begin, one trans, end restores the stack, the nesting and the origin; the flag is cleared exactly when the outer depth is 0 |
| XPlaneImport.TrisRecordsSlice | XPlaneImport-master/XP_import.py:214-220 | TRIS off cnt, for any integers, records `faces[off:off+cnt]` with Python's negative-index and clamping rules, at the running origin when the flag is set, else at the import origin |
| XPlaneImport.TrisSliceCases | XPlaneImport-master/XP_import.py:217 | the slice for non-negative bounds is the clamped window; a window wholly left of the end counts from the end; a window ending at 0 or with a non-positive count is empty |
| XPlaneImport.TextureLoadsOrFails | XPlaneImport-master/XP_import.py:129-175 | a TEXTURE, TEXTURE_NORMAL or TEXTURE_LIT line without a name raises IndexError; otherwise it succeeds iff Blender loads the resolved file, appending that texture, and fails with RuntimeError when it cannot |
| XPlaneImport.TriplesSpec | XPlaneImport-master/XP_import.py:224 | the grouping yields len/3 consecutive triples and drops a trailing one or two indices |
| XPlaneImport.MeshesInTrisOrder | XPlaneImport-master/XP_import.py:222-226 | one mesh per TRIS record, in order, named OBJ0, OBJ1, ..., with its origin and len/3 triangles |
| RenderSkip.RangeSet | KTX_render_with_skips.py:42 | the render range holds exactly start..end-1 |
| RenderSkip.StillFramesMember | KTX_render_with_skips.py:44-73 | a frame is still iff it lies in the render range and no animated object's sample vector changes into it from the frame before |
| RenderSkip.StillFrames | KTX_render_with_skips.py:64-73 | the still frames after removing every animated object's changes; StillFramesMember characterises them |
| RenderSkip.ComputeStillFrames | KTX_render_with_skips.py:43-73 | the sampling and subtraction loops compute exactly the still-frame set |
| RenderSkip.LastRendered | KTX_render_with_skips.py:80-92 | the most recent rendered frame before fr lies in start..fr-1 and is rendered |
| RenderSkip.LastRenderedIsLast | KTX_render_with_skips.py:80-92 | every frame between the last rendered frame and fr is copied |
| RenderSkip.DirWithSlash | KTX_render_with_skips.py:93 | the directory part of a frame path: the prefix of the path up to and including its last '/', or "/" when the path has none |
| RenderSkip.Execute | KTX_render_with_skips.py:78-98 | the frame loop issues exactly the planned actions and restores the base path; the current frame ends at the last rendered frame |
| RenderSkip.FrameStep | KTX_render_with_skips.py:83-96 | one frame is rendered to base + four-digit frame, or copied within the directory of the last render, and the scene then shows the last rendered frame |
| RenderSkip.PlanShape | KTX_render_with_skips.py:42-85 | there is one action per frame start..end-1 and none for end; the first frame is always rendered to base + its 4-digit number |
| RenderSkip.Plan | KTX_render_with_skips.py:80-96 | one action per frame of the range; PlanShape and CopiedIffUnchanged state it |
| RenderSkip.CopiedIffUnchanged | KTX_render_with_skips.py:64-83 | frame k is copied iff it is not the first and no animated object changes into it |
| RenderSkip.CopySourceIdentical | KTX_render_with_skips.py:65-96 | a copied frame's samples equal those of the last rendered frame for every animated object |
| RenderSkip.CopyUsesLastRenderDirectory | KTX_render_with_skips.py:90-96 | a copy of fr-1 to fr happens in the frame-path directory of the last render, and all actions in between are copies |
| RenderSkip.Scene.constructor | KTX_render_with_skips.py:78 | the scene starts with the given output path and current frame |
| SelectBuffer.SymDifferenceIsUnionMinusIntersection | KTX_SelectBuffer.py:52-53 | the symmetric difference is (old ∪ sel) \ (old ∩ sel) |
| SelectBuffer.OperationOf | KTX_SelectBuffer.py:48-59 | the six operation strings and nothing else select an operation; CombineMembers states what each does |
| SelectBuffer.Combine | KTX_SelectBuffer.py:48-59 | resulting_vefs from the old buffer and the selected indices; its membership is stated by CombineMembers |
| SelectBuffer.CombineMembers | KTX_SelectBuffer.py:48-59 | membership after each operation: union, difference, symmetric difference, intersection, set (the selection) and clear (nothing) |
| SelectBuffer.StoreThenRecall | KTX_SelectBuffer.py:56-60 | after `set`, the stored buffer holds exactly the selected indices |
| SelectBuffer.IntersectionDifferencePartition | KTX_SelectBuffer.py:50-55 | intersection and difference split the old buffer into two disjoint parts |
| SelectBuffer.IndicesOfSpec | KTX_SelectBuffer.py:44-47 | the selection lists, in increasing order, exactly the indices of selected elements |
| SelectBuffer.Ascending | KTX_SelectBuffer.py:64 | a set's iteration order lists each member once |
| SelectBuffer.AscendingIncreasing | KTX_SelectBuffer.py:64 | that order is strictly increasing |
| SelectBuffer.ConsIncreasing | KTX_SelectBuffer.py:64 | putting the least element in front keeps the order strictly increasing |
| SelectBuffer.IterationOrder | KTX_SelectBuffer.py:64 | iterating over the result visits exactly its members |
| SelectBuffer.ValidPrefix | KTX_SelectBuffer.py:64-65 | reselection stops at the first index that is out of range |
| SelectBuffer.Buffer.constructor | KTX_SelectBuffer.py:17-18 | the class-level buffer starts as the empty list |
| SelectBuffer.SelectedIndices | KTX_SelectBuffer.py:44-47 | the collecting loop returns the indices of selected elements |
| SelectBuffer.DeselectAll | KTX_SelectBuffer.py:62 | afterwards no element of the given kind is selected; the operator applies it to vertices, edges and faces |
| SelectBuffer.SelectInOrder | KTX_SelectBuffer.py:64-65 | the selected elements are exactly the result indices set before any out-of-range index, which raises IndexError |
| SelectBuffer.Mutate | KTX_SelectBuffer.py:30-65 | the mode picks vertices, edges or faces; an unknown operation or no mode fails before the buffer is written; otherwise the buffer becomes the combined result, every element of the other two kinds is deselected, and in the chosen kind exactly the buffer's indices are selected |
| SelectBuffer.SuccessSelectsBuffer | KTX_SelectBuffer.py:60-65 | when reselection completes, exactly the buffer's members are selected, and all of them are in range |
| SvgExport.FcolToIcol | KTX_ExportToSVG.py:36-38 | the result is in 0..255: 0 below 0, 255 from 1.0 up, floor(256·f) in between |
| SvgExport.FcolToIcolMonotone | KTX_ExportToSVG.py:36-38 | the clamp is monotone |
| SvgExport.Hex2 | KTX_ExportToSVG.py:42-44 | `%0.2X` of a byte has two characters |
| SvgExport.BcolToRgb | KTX_ExportToSVG.py:40-45 | the colour text is '#' and six characters |
| SvgExport.HexDigitValue | KTX_ExportToSVG.py:42-44 | each upper-case hex digit reads back as its value |
| SvgExport.Hex2RoundTrip | KTX_ExportToSVG.py:42-44 | the two hex digits read back as the byte |
| SvgExport.HexByteAtShift | KTX_ExportToSVG.py:42-44 | a byte's two hex digits read back as the byte wherever they sit in the text |
| SvgExport.RgbRoundTrip | KTX_ExportToSVG.py:41-45 | decoding "#RRGGBB" gives back the three bytes |
| SvgExport.BcolToRgbRoundTrip | KTX_ExportToSVG.py:40-45 | decoding the colour text gives the clamp of the first three components; any fourth is ignored |
| SvgExport.CommandsTextSnoc | KTX_ExportToSVG.py:67-77 | the text of a command list extends command by command |
| SvgExport.CommandsSplit | KTX_ExportToSVG.py:67-76 | a spline's commands are the open path, then the closing segment and Z when cyclic |
| SvgExport.OpenPath | KTX_ExportToSVG.py:67-71 | the loop writes "M p0 C " then, for k = 0..n-2, handle_right[k], handle_left[k+1], co[k+1] |
| SvgExport.WriteSegment | KTX_ExportToSVG.py:69-71 | one inner-loop pass appends exactly the text of the curveto from point i to point i+1 |
| SvgExport.CyclicText | KTX_ExportToSVG.py:72-76 | the cyclic tail handle_right[n-1], handle_left[0], co[0] and " Z" completes the text of the closed path |
| SvgExport.SplineLine | KTX_ExportToSVG.py:66-78 | one spline line is the path text plus "\r\n"; a cyclic spline fails when the loop variable was never bound |
| SvgExport.CommandsUpToShape | KTX_ExportToSVG.py:67-71 | the open path starts with moveto p0, and its k-th curveto uses the handles of points k-1 and k |
| SvgExport.CommandsShape | KTX_ExportToSVG.py:67-76 | a spline has n (+2 when cyclic) commands; only the cyclic one closes with a segment back to point 0 and Z |
| SvgExport.PrependEmpty | KTX_ExportToSVG.py:57-79 | prepending nothing to a partial document changes nothing |
| SvgExport.PrependPrepend | KTX_ExportToSVG.py:57-79 | prepending two texts one after the other equals prepending them joined |
| SvgExport.SplinesTextStep | KTX_ExportToSVG.py:66-78 | one loop step: a failing spline ends the object text, otherwise its line is appended |
| SvgExport.CurveLines | KTX_ExportToSVG.py:66-78 | the spline loop writes exactly the lines of all splines, or stops at the first failure |
| SvgExport.Export | KTX_ExportToSVG.py:53-80 | the document is "<svg>" and one `<path id fill stroke="none" d=.../>` per selected object, with fill "#000" without material slots, or the first object's AttributeError, KeyError or IndexError; no closing tag is written |
| SvgExport.ObjectsSpecStep | KTX_ExportToSVG.py:58-79 | the objects from j on write object j's element, then the rest; an object that raises ends the export |
| SvgExport.ObjectPath | KTX_ExportToSVG.py:59-79 | one selected object yields its specified path element, or the AttributeError of an object without data, or the KeyError/IndexError of its material or curve lookup, and leaves i bound as its splines do |
| SvgExport.ObjectFailures | KTX_ExportToSVG.py:59-65 | an object without data raises AttributeError first, then a material lookup failure, then a missing curve raises KeyError; success means the curve exists and the text opens with `<path id="name"` |
| SvgExport.SplineSpec | KTX_ExportToSVG.py:66-78 | one spline's line: the path text and "\r\n", or the error of a cyclic spline whose `i` is unbound; SplineLine is proved equal to it |
| SvgExport.ObjectText | KTX_ExportToSVG.py:59-79 | one object's path element; ObjectPath is proved equal to it and ObjectFailures states its failures |
| SvgExport.DocumentSpec | KTX_ExportToSVG.py:57-79 | "<svg>" followed by the objects' path elements; Export is proved equal to it |
| SvgExport.DocumentStartsWithSvg | KTX_ExportToSVG.py:57 | every written document starts with "<svg>" |
| SvgExport.SinglePointCyclicFails | KTX_ExportToSVG.py:68-75 | a one-point cyclic spline has no closing segment: it raises an error |
| Tools.RowMajorBounds | KTX_Tools.py:416-428 | a row-major index r·cols + c stays below rows·cols |
| Tools.RowVertsShape | KTX_Tools.py:419-425 | a row holds cols vertices at x = startx + c·incx |
| Tools.GridVertsLength | KTX_Tools.py:416-428 | the plot has (stepsx+1)·(stepsy+1) vertices |
| Tools.GridVertsAt | KTX_Tools.py:416-428 | vertex r·(stepsx+1)+c lies at (startx + c·incx, starty + r·incy, f(x, y)) |
| Tools.RowCellsShape | KTX_Tools.py:432-438 | a row of faces holds the cells in column order |
| Tools.CellsLength | KTX_Tools.py:429-441 | exactly stepsx·stepsy faces are made |
| Tools.CellsAt | KTX_Tools.py:429-441 | face r·stepsx + c is the cell (r, c), whose row offset is r·(stepsx+1) |
| Tools.CellValid | KTX_Tools.py:435-436 | a cell's four indices are distinct and below the vertex count |
| Tools.CellsValid | KTX_Tools.py:429-441 | every face is such a quad |
| Tools.FunctionMeshFacesValid | KTX_Tools.py:413-441 | every face of the function mesh is a valid quad over its vertices |
| Tools.FunctionVerts | KTX_Tools.py:416-428 | the nested vertex loop makes the row-major grid |
| Tools.FunctionFaces | KTX_Tools.py:429-441 | the nested face loop makes the row-major cells |
| Tools.FunctionMesh | KTX_Tools.py:413-441 | the operator makes the specified mesh and raises ZeroDivisionError for zero steps |
| Tools.FunctionMeshSpec | KTX_Tools.py:413-441 | the mesh KTXFunction builds, or ZeroDivisionError for zero steps; its shape is stated by GridVertsAt, CellsAt and FunctionMeshFacesValid |
| Tools.RowCellsEmpty | KTX_Tools.py:433 | with no columns, no faces are made |
| Tools.LatticeRowShape | KTX_Tools.py:606-611 | a lattice row advances x by 2·radius per item |
| Tools.LatticeLength | KTX_Tools.py:598-615 | the lattice has countx·county places |
| Tools.LatticeAt | KTX_Tools.py:598-615 | place (v, u) is at x = row start + u·2·radius, y = v·row distance |
| Tools.LatticeRowAt | KTX_Tools.py:606-611 | place u of one row lies at x0 + u·dx on that row's y |
| Tools.LatticeLastRow | KTX_Tools.py:598-615 | a place in the last row sits at its row-major index with the row's offset and height |
| Tools.LatticeEarlierRows | KTX_Tools.py:598-615 | adding a row keeps every earlier place at its index |
| Tools.ObjectGrid | KTX_Tools.py:593-616 | the object grid places countx·county-1 duplicates and skips (0,0); odd rows start at radius in triangular mode |
| Tools.ObjectGridSpec | KTX_Tools.py:593-616 | the duplicate locations: the grid without place (0, 0), nothing without an active object; ObjectGridMatchesCylinderGrid relates it to CylinderGrid |
| Tools.ObjectGridRow | KTX_Tools.py:606-611 | the inner loop appends row v's countx places, dx apart from x0, skipping only item (0, 0) |
| Tools.CylinderGrid | KTX_Tools.py:545-567 | the cylinder grid places countx·county items with the triangular offset |
| Tools.ObjectGridMatchesCylinderGrid | KTX_Tools.py:548-615 | the triangular object grid is the cylinder grid without its first place |
| Tools.PolarArray | KTX_Tools.py:638-648 | the loop gives item k the rotation -(startang + k·inc); a count of 0 raises ZeroDivisionError; without an active object a positive count raises AttributeError |
| Tools.PolarArraySpec | KTX_Tools.py:638-648 | the rotations of the copies, ZeroDivisionError for count 0, AttributeError without an active object; PolarArraySweep states its sweep |
| Tools.PolarRotationsShape | KTX_Tools.py:642-647 | there are count rotations, and the k-th is -(startang + k·inc) |
| Tools.PolarArraySweep | KTX_Tools.py:638-648 | with inc = (end-start)/count, count steps sweep exactly from start to end; without an active object it fails with AttributeError; a negative count gives no copies either way |
| Tools.ClockItems | KTX_Tools.py:804-832 | the clock has one item per number |
| Tools.ClockNumbers | KTX_Tools.py:798-832 | the loop creates the twelve specified items |
| Tools.ClockItemFor | KTX_Tools.py:805-830 | one pass makes the item of the given number: zero-padded name and body, angle 30·number, rotation as specified |
| Tools.ClockItemOf | KTX_Tools.py:805-828 | one hour number's object name, text, angle and rotation; ClockNames and ClockItemsIndex state them |
| Tools.ClockItemsIndex | KTX_Tools.py:800-832 | item i has number i+1 |
| Tools.ClockRotations | KTX_Tools.py:801-832 | item i has angle 30·(i+1); with rotate and readable exactly numbers 4..8 get 180 - angle, otherwise -angle; no rotation without rotate |
| Tools.ClockNames | KTX_Tools.py:805-807 | the name is "clk_" + digits and the body is digits, both reading back as the item number |
| Tools.ClockNamesDistinct | KTX_Tools.py:805 | no two clock items share a name |
| Tools.FirstIndex | KTX_Tools.py:258 | the first position of a present name holds it, and no earlier position does |
| Tools.DedupSpec | KTX_Tools.py:255-259 | the unique list has the same members, no repeats, and keeps first-seen order |
| Tools.Dedup | KTX_Tools.py:255-259 | the material names without repeats, each at its first appearance; DedupSpec characterises it |
| Tools.FirstIndexPrefix | KTX_Tools.py:258-259 | appending a name keeps the first positions of earlier names |
| Tools.UniqueMaterials | KTX_Tools.py:254-259 | the collected list is the de-duplicated first-slot names; an object without slots raises IndexError |
| CsvStrip.FileList.constructor | KTX_KML_to_XYZ.py:29 | the file list starts empty |
| CsvStrip.MatchingSpec | KTX_KML_to_XYZ.py:32-35 | the list holds, disabled, exactly the entries with the suffix, and is no longer than the listing |
| CsvStrip.Matching | KTX_KML_to_XYZ.py:31-35 | the listing entries with the wanted suffix, in listing order; MatchingSpec characterises it |
| CsvStrip.MatchingAppend | KTX_KML_to_XYZ.py:31-35 | the matches of a joined listing are the matches of the first part followed by those of the second, so listing order is kept |
| CsvStrip.MatchingSingle | KTX_KML_to_XYZ.py:33-35 | a single entry is listed, disabled, iff it ends in the suffix |
| CsvStrip.Refresh | KTX_KML_to_XYZ.py:27-39 | refresh clears the list, then adds the matching entries; a failing listing leaves it empty |
| CsvStrip.PairVertsShape | KTX_KML_to_XYZ.py:96-99 | each row gives two vertices: ground (ground radius), then elevated (altitude) |
| CsvStrip.ReadRows | KTX_KML_to_XYZ.py:86-99 | the row loop skips the first row, pairs the vertices of every later row, and stops at the first failing row |
| CsvStrip.SamplesFrom | KTX_KML_to_XYZ.py:86-95 | one sample per row after the header row, or the first row's parse error; ReadRows is proved against it, taken from the first row |
| CsvStrip.PrefixedCons | KTX_KML_to_XYZ.py:87-99 | accumulating rows one at a time gives the same result as reading them together |
| CsvStrip.StripFaces | KTX_KML_to_XYZ.py:101-103 | the face loop makes quads [i-3, i-2, i, i-1] for odd i, 3 ≤ i < n-1 |
| CsvStrip.StripShape | KTX_KML_to_XYZ.py:100-103 | k rows give max(0, k-2) quads [2j, 2j+1, 2j+3, 2j+2], every index below 2k-2, so the last row is never joined |
| CsvStrip.StripQuadsShape | KTX_KML_to_XYZ.py:101-102 | quad j joins rows j and j+1 |
| CsvStrip.SelectNames | KTX_KML_to_XYZ.py:75-80 | a successful run makes one mesh per enabled item, named after it, in order |
| CsvStrip.ImportFile | KTX_KML_to_XYZ.py:82-103 | one file's vertices and faces are the specified mesh |
| CsvStrip.Select | KTX_KML_to_XYZ.py:73-107 | the item loop processes only enabled items, reads directory + name with no separator, and stops at the first error |
| CsvStrip.SelectSpec | KTX_KML_to_XYZ.py:73-107 | one mesh per enabled item, in list order, or the first open or parse error; Select is proved equal to it |
| CsvStrip.SelectStops | KTX_KML_to_XYZ.py:75-104 | an error in an earlier file decides the outcome whatever follows |
| CsvStrip.FileMeshValid | KTX_KML_to_XYZ.py:97-103 | a mesh has two vertices per row, and every face index is below the vertex count |
| KmlToXyz.Refresh | KTX_KML_to_XYZ.py:27-39 | the list is cleared and refilled with the entries ending in ".kml"; a failing listing leaves it empty |
| KmlToXyz.AltitudeAboveGround | KTX_KML_to_XYZ.py:93-95 | alt = Altitude / height_scale + earth_size, nudged to earth_size + 0.00001 when equal; it is never earth_size |
| KmlToXyz.KmlColumns | KTX_KML_to_XYZ.py:84-93 | columns are Longitude, Latitude, Altitude; a row missing the altitude raises TypeError |
| KmlToXyz.KmlParse | KTX_KML_to_XYZ.py:84-95 | the row parser of the KML layout, whose columns and altitude KmlColumns and AltitudeAboveGround state |
| KmlToXyz.Select | KTX_KML_to_XYZ.py:73-107 | the KML Select runs the shared importer with the KML row rule |
| GeoToXyz.Refresh | KTX_GEO_to_XYZ.py:27-39 | the list is cleared and refilled with the entries ending in ".csv"; a failing listing leaves it empty |
| GeoToXyz.GeoAltitudeAboveGround | KTX_GEO_to_XYZ.py:94-96 | alt = Altitude/500000 + 10, nudged to 10.00001 when equal to 10; it is never 10 |
| GeoToXyz.GeoPosition | KTX_GEO_to_XYZ.py:91-100 | Position "la,lo" gives latitude la and longitude lo; vertices are at radius 10 and alt |
| GeoToXyz.GeoParse | KTX_GEO_to_XYZ.py:84-96 | the row parser of the GEO layout, whose position and altitude GeoPosition and GeoAltitudeAboveGround state |
| GeoToXyz.GeoPositionWithoutComma | KTX_GEO_to_XYZ.py:91-93 | a Position without ',' raises IndexError |
| GeoToXyz.Select | KTX_GEO_to_XYZ.py:73-108 | the GEO Select runs the shared importer with the GEO row rule |
| Bottle.ThreadRise | KTX_Bottle_2.py:230-262 | v steps of thread_height/v rise exactly thread_height; thread_steps steps from thread_height reach aa |
| Bottle.Pitch | KTX_Bottle_2.py:230-231 | the rise of one spin step, thread_height / v; ThreadRise states the rise of the whole thread |
| Bottle.TopHeight | KTX_Bottle_2.py:261-262 | aa, the height of the top rim; ThreadRise relates it to the pitch |
| Bottle.Phase | KTX_Bottle_2.py:263 | bb = thread_steps % v; PhaseWithinTurn bounds it |
| Bottle.PhaseWithinTurn | KTX_Bottle_2.py:263-267 | bb = thread_steps mod v lies in 0..v-1 and is the fraction of a turn left after whole turns |
| Bottle.Range | KTX_Bottle_2.py:235 | `range(0, n, s)` starts at its start |
| Bottle.RangeShape | KTX_Bottle_2.py:235 | range values go up by s and stay below the stop |
| Bottle.RangeMember | KTX_Bottle_2.py:235 | j is in range(start, stop, s) iff start ≤ j < stop and j - start is a multiple of s |
| Bottle.MultipleGap | KTX_Bottle_2.py:235 | no multiple of s lies strictly between two consecutive ones |
| Bottle.Identity | KTX_Bottle_2.py:233 | the face list starts with one entry per spun face |
| Bottle.IdentitySpec | KTX_Bottle_2.py:233 | `bm.faces[:]` after the spin: entry k is face k, for each of the n faces |
| Bottle.KeptBelow | KTX_Bottle_2.py:233-236 | the faces left after removing multiples below a bound are valid face indices |
| Bottle.ListRemove | KTX_Bottle_2.py:236 | `list.remove` succeeds iff the value is present, leaving one element fewer; otherwise ValueError |
| Bottle.ListRemoveCount | KTX_Bottle_2.py:236 | a successful `list.remove` takes away exactly one occurrence of the value |
| Bottle.ListRemoveSnoc | KTX_Bottle_2.py:236 | removal of a present value is unaffected by a later element |
| Bottle.ListRemoveFirst | KTX_Bottle_2.py:236 | `list.remove` takes out the first occurrence and keeps the order of the rest |
| Bottle.KeptNone | KTX_Bottle_2.py:233 | with nothing removed the list is all faces |
| Bottle.KeptSameBelow | KTX_Bottle_2.py:235 | bounds at or past the face count remove the same faces |
| Bottle.KeptMember | KTX_Bottle_2.py:233-236 | a face is kept iff it is not a multiple of s below the bound |
| Bottle.KeptIncreasing | KTX_Bottle_2.py:233-236 | the kept faces keep their order |
| Bottle.RemoveKept | KTX_Bottle_2.py:235-236 | removing face i, a multiple of s, advances the bound by s |
| Bottle.KeptLast | KTX_Bottle_2.py:233-236 | below bound i face i is kept; below i + s it is removed |
| Bottle.RemoveKeptLast | KTX_Bottle_2.py:235-236 | face i is the only occurrence among faces 0..i, so removing it leaves the faces below it |
| Bottle.KeptFacesPartition | KTX_Bottle_2.py:233-236 | with skipping on and s > 0, exactly the faces not in range(0, steps, s) are kept |
| Bottle.KeptFacesSpec | KTX_Bottle_2.py:233-236 | gg after the skip loop: all faces, ValueError for a zero offset, or the faces off the offset's multiples; SkipFaces and KeptFacesPartition state it |
| Bottle.SkipFaces | KTX_Bottle_2.py:233-236 | the removal loop yields the kept faces, removes ⌈steps/s⌉ faces, and raises ValueError for s = 0 |
| Bottle.Translate | KTX_Bottle_2.py:251-277 | translation adds the vector to every vertex |
| Bottle.Scale | KTX_Bottle_2.py:252-275 | scaling multiplies each coordinate |
| Bottle.RimsFlat | KTX_Bottle_2.py:246-277 | the bottom ring ends at z = 0 and the top ring at z = aa; x and y are unchanged |
| Bottle.GuardedThickness | KTX_Bottle_2.py:280-281 | after the guard tt < neck_radius; a tt already below is unchanged |
| Bottle.CapEnlargement | KTX_Bottle_2.py:332-335 | ca: neck_radius / 100 · eoffset when the cap is enlarged, else 0 |
| Bottle.ThreadSeed | KTX_Bottle_2.py:227-229 | the thread's seed edge from (r, 0, thread_height) to (r, 0, 0), reversed for the cap (:338-341) |
| Bottle.BodyProfileShape | KTX_Bottle_2.py:461-482 | the body is 2 vertices chained by 1 edge, or 8 vertices chained by 7 edges ending on the axis at y - z5 |
| Bottle.BodyProfile | KTX_Bottle_2.py:461-482 | the body below the neck: two vertices, or with manual_bot the outline to the axis; BodyProfileShape states it |
| Bottle.InsideProfilesShape | KTX_Bottle_2.py:282-411 | the bottle inside, cap inside and cap body are chains made from the last vertex back; the cap parts close on the axis |
| Bottle.BottleInside | KTX_Bottle_2.py:282-292 | the bottle's inner wall profile; InsideProfilesShape states its shape |
| Bottle.CapInside | KTX_Bottle_2.py:385-393 | the cap's inside profile; InsideProfilesShape states its shape |
| Bottle.CapBody | KTX_Bottle_2.py:397-411 | the cap's outer body profile, closed at the axis; InsideProfilesShape states its shape |
| Bottle.FinishOps | KTX_Bottle_2.py:298-302 | welding runs iff remdoub_onoff and doubles ≠ 0, and always before the final uniform scale |
| Bottle.ExecuteFails | KTX_Bottle_2.py:234-236 | execute fails, with ValueError, iff a skip option is on with offset 0 |
| Bottle.ExecuteSpec | KTX_Bottle_2.py:221-482 | the whole execution: bottle faces, guarded thickness and cap faces; ExecuteFails states when it fails and Operator.Execute is proved equal to it |
| Bottle.ValidProps | KTX_Bottle_2.py:66-124 | the property minimums and maximums Blender enforces, taken as the operator's precondition |
| Bottle.WallsClear | KTX_Bottle_2.py:279-389 | after the guard the bottle wall stays off the axis. The cap seed sits depth + ca outside the bottle seed, and its edge (v2, v1) reverses the bottle's (v1, v2) |
| Bottle.CapAboveBottle | KTX_Bottle_2.py:315-437 | the cap object sits thread_height/2 · overall_scale above the bottle |
| Bottle.Operator.constructor | KTX_Bottle_2.py:225-231 | the operator starts with its properties and thickness |
| Bottle.Operator.GuardThickness | KTX_Bottle_2.py:280-281 | the guard reassigns tt to its guarded value |
| Bottle.Operator.Execute | KTX_Bottle_2.py:225-482 | execute builds the specified bottle and cap; tt is guarded iff comp_bot and the bottle skip succeeded, and the cap reads the updated tt |
| RenderSlot.SlotState.constructor | KTX_RenderSlot.py:38-39 | the occupancy string starts as "00000000" |
| RenderSlot.SlotState.Select | KTX_RenderSlot.py:51-52 | selecting slot n makes it active, nothing else changes |
| RenderSlot.SlotState.CheckSlots | KTX_RenderSlot.py:57-75 | the occupancy becomes one character per slot; the active slot returns to where it was, or advances when auto-advance is on |
| RenderSlot.OccupancySpec | KTX_RenderSlot.py:61-70 | the string has length 8, and character i is '1' iff saving slot i succeeded, else '0' |
| RenderSlot.Occupancy | KTX_RenderSlot.py:61-70 | the "1"/"0" text for the slots; OccupancySpec characterises it |
| RenderSlot.NextSlot | KTX_RenderSlot.py:71-74 | the slot after the active one, wrapping to 0; NextSlotRing states the ring |
| RenderSlot.NextSlotRing | KTX_RenderSlot.py:71-74 | the advance is (active+1) mod 8; eight advances come back |
| RenderSlot.SlotButtons | KTX_RenderSlot.py:88-93 | one button per slot, in slot order |
| RenderSlot.Panel | KTX_RenderSlot.py:78-95 | the row is the toggle and eight buttons; without a render result, or a short occupancy string, the notice follows what was drawn |
| RenderSlot.PanelSpec | KTX_RenderSlot.py:78-95 | the panel items: the auto-advance toggle and eight slot buttons, or the info label without a render result; PanelButtons states the buttons |
| RenderSlot.PanelButtons | KTX_RenderSlot.py:88-93 | button i is numbered i, labelled "[i+1]" iff active, else "i+1", and has LAYER_ACTIVE iff character i is '1' |
| RenderSlot.RenderThenPanel | KTX_RenderSlot.py:61-93 | after a check, exactly the slots whose render could be saved show the filled icon |
| ImageFontPaths.StripLength | KTX_ImageFontPaths.py:44 | each deletion removes exactly three characters |
| ImageFontPaths.StripDotDot | KTX_ImageFontPaths.py:44 | `re.sub(r"\.\./", "", s)`: each "../" met in one left-to-right scan deleted; the lemmas below state it |
| ImageFontPaths.DeletionsIffDotDot | KTX_ImageFontPaths.py:44 | the pass deletes something iff the path contains "../" |
| ImageFontPaths.StripUnchangedIff | KTX_ImageFontPaths.py:44 | a path without "../" is unchanged; one with it shrinks by at least 3 |
| ImageFontPaths.NoDeletionsUnchanged | KTX_ImageFontPaths.py:44 | no deletion means no change |
| ImageFontPaths.StripNotIdempotent | KTX_ImageFontPaths.py:44 | "....//" becomes "../", which still holds "../"; a second pass empties it |
| ImageFontPaths.BuiltinUnchanged | KTX_ImageFontPaths.py:46-47 | the `<builtin>` guard does not change the Remove Slashdots result |
| ImageFontPaths.RewritePaths | KTX_ImageFontPaths.py:43-62 | every image path is rewritten; every font path is rewritten unless it is `<builtin>` |
| ImageFontPaths.RemoveSlashDots | KTX_ImageFontPaths.py:42-48 | Remove Slashdots applies the one-pass "../" deletion to images and non-builtin fonts |
| ImageFontPaths.SearchReplace | KTX_ImageFontPaths.py:56-63 | search/replace applies the substitution to images and non-builtin fonts |
| ImageFontPaths.ListedSpec | KTX_ImageFontPaths.py:81-89 | the panel lists image k iff its path is non-empty and font k iff its path is not `<builtin>` |
| ImageFontPaths.ListedImagesSpec | KTX_ImageFontPaths.py:81-83 | image k is listed iff its path is non-empty |
| ImageFontPaths.ListedFontsSpec | KTX_ImageFontPaths.py:87-89 | font k is listed iff its path is not `<builtin>` |
| ImageFontPaths.Draw | KTX_ImageFontPaths.py:74-96 | the panel is the images heading, the listed images, the fonts heading, the listed fonts and the tools |
| SgiLogo.Outline | KTX_SGILogo.py:115-136 | the outline has 18 corners |
| SgiLogo.PathEdges | KTX_SGILogo.py:138-142 | the loop's edges are (i-1, i) for i = 1..n-1 |
| SgiLogo.BuildOutline | KTX_SGILogo.py:115-144 | the loop adds the 18 corners in table order, joined in sequence, then closes with (0, 17) |
| SgiLogo.PathDegree | KTX_SGILogo.py:138-142 | on the open path, the ends have degree 1 and the inner corners degree 2 |
| SgiLogo.PathDegreeOutside | KTX_SGILogo.py:138-142 | no path edge touches a vertex past the end |
| SgiLogo.LoopDegree | KTX_SGILogo.py:138-144 | the closed loop has as many edges as corners and every corner has degree 2 |
| SgiLogo.LoopIsCycle | KTX_SGILogo.py:138-144 | edge k leads from k to k+1, and the last edge joins 17 back to 0 |
| SgiLogo.NeighboursAxisParallel | KTX_SGILogo.py:115-136 | consecutive corners, and the last and first, agree in two coordinates |
| SgiLogo.OutlineAxisParallel | KTX_SGILogo.py:117-144 | every edge changes at most one coordinate |
| SgiLogo.NeighboursDistinct | KTX_SGILogo.py:115-136 | with positive gap and length, neighbouring corners coincide only when long = short, and then corners 0 and 1 do |
| SgiLogo.HeightsAre | KTX_SGILogo.py:115-136 | each corner's z is the one in the height table |
| SgiLogo.Heights | KTX_SGILogo.py:115-136 | every corner's z is one of 0, short, long and short+long |
| SgiLogo.OutlineDegenerate | KTX_SGILogo.py:115-136 | an edge has zero length only when long = short, and then edge 0 does; z is one of 0, short, long and short+long |
| SgiLogo.OutlineBounds | KTX_SGILogo.py:115-136 | every corner lies in [-mid, mid] × [-mid, mid] × [0, short+long] |
| LibraryImportObj.IsObjNameSpec | KTX_Library_Import_OBJ/__init__.py:74 | a name qualifies iff its last three characters are "obj", so "xobj" qualifies and "ob" does not |
| LibraryImportObj.ObjEntriesSpec | KTX_Library_Import_OBJ/__init__.py:71-76 | an importer entry exists exactly for each qualifying name, with its joined path |
| LibraryImportObj.ObjEntries | KTX_Library_Import_OBJ/__init__.py:71-76 | the importer entries of a listing; ObjEntriesSpec characterises them |
| LibraryImportObj.AddOperators | KTX_Library_Import_OBJ/__init__.py:71-76 | the loop adds the importer entries in listing order |
| LibraryImportObj.SubmenuRoundTrip | KTX_Library_Import_OBJ/__init__.py:66-82 | the id "asset_library_submenu." + folder splits back to folder iff folder has no '.' |
| LibraryImportObj.SubmenuId | KTX_Library_Import_OBJ/__init__.py:78-82 | the id of a folder's submenu class; SubmenuRoundTrip states that FolderOf recovers the folder |
| LibraryImportObj.FolderOf | KTX_Library_Import_OBJ/__init__.py:64-68 | the folder a submenu id names, or IndexError; BaseSubmenuFails and SubmenuRoundTrip state it |
| LibraryImportObj.BaseSubmenuFails | KTX_Library_Import_OBJ/__init__.py:61-66 | the base submenu's id has no '.', so its draw raises IndexError |
| LibraryImportObj.DrawSubmenu | KTX_Library_Import_OBJ/__init__.py:64-76 | a submenu lists the importer entries of its folder under the library root; it fails with IndexError when its id does not split, and with OSError when the folder cannot be listed |
| LibraryImportObj.RecordedSpec | KTX_Library_Import_OBJ/__init__.py:119-123 | registration records folderDict[name] = its submenu id for every folder and keeps other keys |
| LibraryImportObj.FoldersSpec | KTX_Library_Import_OBJ/__init__.py:119-120 | the folders are the listing entries that are directories |
| LibraryImportObj.Library.constructor | KTX_Library_Import_OBJ/__init__.py:115-117 | the folder dictionary starts empty, with nothing registered |
| LibraryImportObj.Library.Register | KTX_Library_Import_OBJ/__init__.py:115-124 | register creates one submenu per directory entry, in order, and records its id; an unlistable root raises OSError and leaves the folder table unchanged |
| LibraryImportObj.Library.RegisterFolders | KTX_Library_Import_OBJ/__init__.py:118-123 | the register loop maps each folder of a read listing, in order, to its submenu id and registers that id after the ones before |
| LibraryImportObj.FoldersStep | KTX_Library_Import_OBJ/__init__.py:119-120 | one more listing entry adds it to the folders iff it is a directory |
| LibraryImportObj.RecordStep | KTX_Library_Import_OBJ/__init__.py:121-123 | one more folder adds its key and its id |
| LibraryImportObj.SubmenuIds | KTX_Library_Import_OBJ/__init__.py:121-122 | registered ids match the folders one to one |
| LibraryImportObj.DrawTopMenu | KTX_Library_Import_OBJ/__init__.py:90-107 | the top menu lists folder submenus, in listing order, before the root's importer entries; an unregistered folder raises KeyError and an unlistable root OSError |
| LibraryImportObj.FolderMenus | KTX_Library_Import_OBJ/__init__.py:102-105 | the folder loop of the top menu gives one submenu per folder in listing order, or KeyError at the first folder register did not record |
| LibraryImportObj.TopMenuSpec | KTX_Library_Import_OBJ/__init__.py:90-107 | the top menu: OSError for an unlistable root, KeyError for an unregistered folder, else the folder submenus then the importer entries; DrawTopMenu is proved equal to it |
| LibraryImportObj.FoldersAppend | KTX_Library_Import_OBJ/__init__.py:103-104 | the folders of a joined listing are the folders of each part |
| LibraryImportObj.FolderEntriesPrefixError | KTX_Library_Import_OBJ/__init__.py:103-105 | a KeyError at an earlier folder decides the result |
| LibraryImportObj.RegisterThenDraw | KTX_Library_Import_OBJ/__init__.py:102-123 | after registering the same listing, the top menu never fails: its folder submenus come first, then the importer entries |
| LibraryImportObj.FolderItems | KTX_Library_Import_OBJ/__init__.py:105 | one submenu item per folder |
| LibraryImportObj.RecordedEntries | KTX_Library_Import_OBJ/__init__.py:105-123 | every recorded folder's lookup succeeds |
| Common.AdvanceLinear | KTX_Tools.py:424-425 | adding inc k times to start gives start + k·inc |
| Common.NatToStringDigits | KTX_Tools.py:805 | `str(n)` of a natural is all digits, one digit exactly when n < 10 |
| Common.NatToStringValue | KTX_Tools.py:805 | `str(n)` reads back as n |
| Common.ZFill | KTX_Tools.py:805-807 | `zfill(w)` has w characters, or the original length when that is longer |
| Common.ZFillSpec | KTX_Tools.py:805-807 | `zfill(w)` keeps the text as its suffix and puts only zeros in front |
| Common.ZFillValue | KTX_Tools.py:805-807 | a zero-filled number reads back as the number |
| Common.Split | KTX_GEO_to_XYZ.py:91 | `split(",")` yields at least one field, and no field holds the separator |
| Common.SplitNoSep | KTX_GEO_to_XYZ.py:91 | text without the separator splits into itself alone |
| Common.SplitAppend | KTX_GEO_to_XYZ.py:91-93 | a + ',' + b, with no ',' in a, splits into a followed by the fields of b |
| Common.PyIndex | XPlaneImport-master/XP_import.py:204 | a Python index in -len..len-1 names a position inside the sequence |
| Common.PySlice | XPlaneImport-master/XP_import.py:217 | an in-range slice is the plain subsequence, and no slice is longer than the sequence |
| Common.LastChars | KTX_Library_Import_OBJ/__init__.py:74 | `name[-3:]` has three characters, or the whole name's length when shorter |
| Common.RFind | XPlaneImport-master/XP_import.py:131 | the position found holds the character and none after it does; -1 when it is absent |

## Left out

- Host operators whose code is not shown are outside the model: bmesh
  spin, inset, extrude, translate, scale, rotate, remove_doubles, duplicate
  and the mesh creation. `Bottle.Build` keeps only the profile vertices
  handed to the first spin, the face list handed to both insets, the
  inner and body profiles, the finishing operations and the object lifts.
  It does not record the spin arguments (steps, angle, the `dvec` rise
  `thread_height / v`), the inset thickness `thread_height / 5` and depth,
  the second inset by `trap` and `depth`, the rim extrusions or the
  rotation of the top seed vertex. Closure and manifold claims about the
  thread solid are therefore not modelled.
- `Bottle.BottomRim`, `Bottle.TopRim`, `Bottle.Translate`, `Bottle.Scale` and
  `Bottle.RimsFlat` state the rim geometry on their own; `Bottle.Build` does
  not use them, because the extruded rim vertices come from a host operator.
- `RenderSkip.Execute` and `RenderSkip.Plan` take the frame range as
  parameters. The operator reads it from the scene named "Scene"
  (KTX_render_with_skips.py:40-41), raises KeyError when no scene has that
  name, and that scene may differ from the context scene whose frames it
  sets and renders (:80-96); the model assumes it is the context scene.
- File reads, `os.listdir`, `os.path.exists`/`isdir`, `save_render`, the
  render calls, `subprocess` cp and f-curve evaluation are parameters or
  recorded actions. The SIGINT abort of render-and-skip is not modelled:
  every frame of the range is handled.
- Trigonometry, `math.radians`, `sqrt(0.75)` and `to_xyz` are left out.
  - Importer samples keep latitude, longitude and radius.
  - The triangular row distance is a parameter.
  - Clock positions and the bottle phase rotation are not computed.
  - Polar and clock rotations are in degrees.
- Floating-point rounding is not modelled: coordinates are exact reals.
  `str(float)` in the SVG text is an opaque formatting parameter, and
  `float()`/`int()` parsing is a parameter returning None on ValueError.
- The user expression `eval`ed by KTXFunction is a function parameter.
  The regular-expression engine of Search/Replace is a substitution
  parameter. Remove Slashdots' fixed pattern is modelled in full.
- `random` in KTX_Tools.py and the shader/node wiring are left out. The
  Glossy/Mix shader operator is modelled only up to its unique material list.
- Only the outcome of a partial layout, of partly created objects, or of a
  file list changed before an exception is modelled. The model returns the
  error kind, or the items drawn before it.
- Python `set` iteration order is modelled as ascending order. This is the
  order CPython uses for small integer sets, but the language does not
  promise it.
- `LibraryImportObj.DrawTopMenu` takes one directory listing. The add-on
  lists the root three times per draw (KTX_Library_Import_OBJ/__init__.py:96,
  :102 and :72 through the call at :107), and the first result, `obj_list`,
  is never used. The model assumes the three calls agree; any failing one
  raises OSError, which is the `None` listing.
- `LibraryImportObj.Library.Register` does not model the classes registered
  before the listing fails (the importer operator and the top menu stay
  registered); it returns OSError with the folder table unchanged.
- Hide, smooth, subdivision and normal-recalculation flags are left out, as
  are the fillet, curve and smoothing steps of the SGI logo.
- Blender property clamps (min/max of the operator properties) are taken as
  the `Bottle.ValidProps` precondition rather than modelled as clamping.
- `RenderSlot.SlotState.CheckSlots` assumes the "Render Result" image exists.
  Without it the handler raises KeyError before changing anything. The panel
  models that case.
- `RenderSlot.SlotState.Select` assumes the same image exists
  (KTX_RenderSlot.py:51); without it the button raises KeyError and the
  active slot is unchanged. The panel draws the slot buttons only when the
  image exists.
- `XPlaneImport.Run` does not model the material and texture-node creation.
  The texture path rule is `XPlaneImport.TexturePath`, and an image Blender
  cannot load is the `imageLoads` parameter, which fails with RuntimeError.
- `XPlaneImport.TexturePath` follows posixpath: '/' is the only separator;
  Windows paths with backslashes and drive letters are not modelled.
- `SvgExport.Export` returns only the error kind. The add-on has then already
  written "<svg>", every earlier element and possibly the opening of the
  failing path and some of its spline lines (KTX_ExportToSVG.py:57-78) to the
  output file.
- `SelectBuffer.Mutate` does not model the selection flush Blender performs
  when the mesh select mode is switched back to the saved mode; the flags
  are the ones set in the chosen kind.
