# rasterizer_pp in Dafny

A model of the integer and structural core of a small software rasterizer
written in C++ on SDL. The rasterizer keeps one global ARGB frame buffer
(`frame_buffer`, a `std::vector<u32>`). It draws pixels, grid lines,
rectangles and Bresenham lines into it, and fills triangles with flat-bottom
and flat-top scanline passes. It reads meshes from Wavefront OBJ text with a
hand-written lexer, or from a built-in cube. Each frame, `input()` maps keys
to the render settings, `update()` culls, lights, emits and depth-sorts
triangles, and `render()` dispatches on a render-mode bit mask.

One Dafny module per source file:

- `Display` (src/display.cpp): class `FrameBuffer`, holding `width`, `height`
  and an `array<Color>` of 4·w·h cells. `DrawPixel`, `ClearFrameBuffer`,
  `DrawGrid`, `DrawRect` and `DrawLineB` write the array in place. Every
  drawing method is specified by `Paint`, the in-order fold of its
  `draw_pixel` writes over a pixel sequence (`LinePoints`, `RectPoints`) or by
  `Grid`/`Fill`. Lemmas then state which cells change.
- `Triangle` (src/triangle.cpp): the y-sort swaps, the three-line
  wireframe, and the two scanline passes as row loops. Each pass is
  specified by the pixel sequence it paints. Also the texel index check of
  `draw_texel`.
- `Mesh` (src/mesh.cpp): the cube tables and `load_cube_mesh_data`. Class
  `Lexer` over `seq<char>` has the cursor, line, token and identifier state.
  Its methods are proved against the pure step function `Step` and the
  driver `LexFrom`. The token-to-mesh loop `AssembleMesh` is specified by
  `Vertices`/`Faces`.
- `Frame` (src/main.cpp): the key state machine `Respond`,
  `light_apply_intensity` on `bv32`, and class `App` holding the globals that
  `input()`, `update()` and `render()` change.
- `Vector` and `Matrix` (src/vector.hpp, src/vector.cpp, src/matrix.hpp):
  value types over `real`. `Matrix` values are `seq<seq<real>>`.
- `Ints`: `u32` and `size_t` conversions and product monotonicity.

Floating point is modelled as exact `real`. `sin`, `cos`, `tan` and
`std::stof` are parameters; `std::stoi` is modelled on the lexemes number()
passes it, and a conversion that throws ends the lexer. So is the per-face floating-point pipeline of
`update()`: world transform, normal, culling dot product, lighting factor,
projection and average depth all arrive as the parameter `geom`.

## Model

| member | source | states |
|---|---|---|
| Ints.U32 | src/display.cpp:61-64 | a `u32` conversion lands in [0, 2^32) and keeps values already in range |
| Ints.SizeT | src/display.cpp:89-91 | a `size_t` conversion lands in [0, 2^64), keeps values in range and sends negative `i32` values to 2^63 or above |
| Display.Write | src/display.cpp:61-65 | one draw_pixel write sets cell x + y·width and keeps the length |
| Display.Paint | src/display.cpp:61-65 | computes the buffer after draw_pixel writes each point of a batch in order in one colour, and keeps its length |
| Display.PaintAt | src/display.cpp:61-65 | after a batch of writes a cell holds the colour exactly when some point lands on it, and keeps its old value otherwise |
| Display.PaintConcat | src/display.cpp:61-65 | drawing two batches in turn is drawing their concatenation |
| Display.PaintCons | src/display.cpp:61-65 | drawing a point and then a batch is one write followed by the batch |
| Display.AdmittedInside | src/display.cpp:62-64 | in a buffer of non-zero width, a pixel that passes the non-strict assertion (x <= width, y <= height) lands inside the 4·w·h cells |
| Display.FrameBuffer.constructor | src/main.cpp:48-49 | the buffer has `sizeof(u32) * width * height` cells, all zero |
| Display.FrameBuffer.AdmittedCell | src/display.cpp:62-64 | every admitted pixel indexes a cell of the buffer |
| Display.FrameBuffer.RightEdgeWraps | src/display.cpp:62-64 | column `width` of row y is the same cell as column 0 of row y + 1 |
| Display.FrameBuffer.DrawPixel | src/display.cpp:61-65 | exactly cell x + y·width becomes the colour, every other cell is unchanged |
| Display.FrameBuffer.ClearFrameBuffer | src/display.cpp:161-167 | the first width·height cells become the colour and the rest of the buffer is unchanged |
| Display.FillAt | src/display.cpp:161-167 | cell k holds the colour when k < width·height and its old value otherwise |
| Display.FillStep | src/display.cpp:163-166 | one iteration at (x, y) extends the clear by cell x + y·width |
| Display.FrameBuffer.DrawGrid | src/display.cpp:80-86 | the buffer becomes `Grid` of the old buffer over the visible cells in row-major order |
| Display.GridAt | src/display.cpp:80-86 | visible pixel (x, y) is 0xff333333 exactly when x % gx == 0 or y % gy == 0, and keeps its old value otherwise |
| Display.VisibleCell | src/display.cpp:80-86 | a visible pixel's cell lies in the first width·height cells |
| Display.GridIndex | src/display.cpp:80-86 | after the first n cells, cell k holds the grid colour exactly when k < n and its pixel is on a grid line, and its old value otherwise |
| Display.GridStep | src/display.cpp:80-86 | one iteration at (x, y) extends the grid by cell x + y·width, painting it exactly when x % gx == 0 or y % gy == 0 |
| Display.GridBeyond | src/display.cpp:80-86 | cells past the visible area are unchanged by draw_grid |
| Display.Grid | src/display.cpp:80-86 | computes the buffer after draw_grid has visited its first n cells in row-major order, and keeps its length |
| Display.Fill | src/display.cpp:161-167 | computes the buffer with its first n cells set to the colour, and keeps its length |
| Display.FrameBuffer.DrawRectRow | src/display.cpp:91-93 | the inner loop of draw_rect paints `RowPoints` in order |
| Display.FrameBuffer.DrawRect | src/display.cpp:89-95 | the buffer becomes `Paint` of `RectPoints`, the pixels the two loops visit, in order |
| Display.RectPointsExact | src/display.cpp:89-95 | draw_rect draws exactly the pixels (i - w/2, j - h/2), truncated to `u32`, for the `size_t` loop values i and j |
| Display.RectCentred | src/display.cpp:89-95 | with a non-negative corner and no wrap, draw_rect draws exactly the w-by-h box centred on (x, y), w·h pixels |
| Display.NegativeCornerDrawsNothing | src/display.cpp:90-91 | a negative corner converts to a huge `size_t` start, so nothing is drawn |
| Display.SmallDot | src/display.cpp:89-95 | a 4x4 dot at (10, 20) covers exactly columns 8..11 and rows 18..21 |
| Display.RowsLength | src/display.cpp:90-94 | the outer loop draws one full row per row value |
| Display.RowLength | src/display.cpp:91-93 | the inner loop draws one pixel per column value |
| Display.RowMember | src/display.cpp:91-93 | the inner loop draws exactly the pixels of the column values it visits |
| Display.RowsMember | src/display.cpp:90-94 | the two loops draw exactly the pixels of the value pairs they visit |
| Display.RectPoints | src/display.cpp:89-95 | computes the pixels draw_rect draws, in order: the `size_t` loops from x and y up to the `u32` bounds x + w and y + h |
| Display.FrameBuffer.WalkX | src/display.cpp:126-138 | the x-major loop paints `LoopPoints` from its initial state |
| Display.FrameBuffer.WalkY | src/display.cpp:139-152 | the y-major loop paints `LoopPoints` from its initial state |
| Display.LinePoints | src/display.cpp:118-153 | computes the pixels draw_line_b draws, in order: the error-term walk along the longer axis |
| Display.LoopPoints | src/display.cpp:126-152 | computes the pixels the loop of draw_line_b draws from a given state of its variables |
| Display.FrameBuffer.DrawLineB | src/display.cpp:118-153 | the buffer becomes `Paint` of `LinePoints(x0, y0, x1, y1)` |
| Display.LineAsLoop | src/display.cpp:118-153 | the loop of draw_line_b, run from its initial variables, draws exactly `LinePoints` |
| Display.LoopPointsIsRest | src/display.cpp:126-152 | from any reachable state the loop draws the rest of the line |
| Display.LineRestIsPlaced | src/display.cpp:126-152 | the rest of the line is the rest of the error-term walk, placed on the axes |
| Display.AtNextStep | src/display.cpp:129-137 | one iteration moves the loop variables to the next step of the walk |
| Display.WalkLength | src/display.cpp:128-141 | the loop runs once per major-axis value |
| Display.WalkInvStart | src/display.cpp:127-140 | the initial error term p = 2·dMin - dMaj satisfies the walk invariant |
| Display.WalkInvStep | src/display.cpp:131-137 | each iteration keeps the error-term invariant |
| Display.MinorBound | src/display.cpp:131-137 | the minor offset never passes dMin and reaches it on the last iteration |
| Display.WalkShape | src/display.cpp:128-138 | the walk has one step per major offset, a minor offset that moves by 0 or 1 per step, stays in [minor, dMin] and ends at dMin |
| Display.LineWalk | src/display.cpp:126-152 | the walk of draw_line_b has that shape for either axis ordering |
| Display.LineIsPlacedWalk | src/display.cpp:118-153 | draw_line_b's pixels are its walk placed on the axes it picks |
| Display.LineEndpoints | src/display.cpp:118-153 | draw_line_b draws max(abs dx, abs dy) + 1 pixels, the first (x0, y0) and the last (x1, y1) |
| Display.LineSteps | src/display.cpp:126-152 | each step moves the major axis by exactly one toward the end point and the minor axis by 0 or 1 toward it |
| Display.LineInBox | src/display.cpp:118-153 | every pixel of the line lies in the bounding box of its end points |
| Display.LineAdmitted | src/display.cpp:118-153 | a line whose end points pass draw_pixel's assertion passes it at every pixel |
| Display.HorizontalLine | src/display.cpp:126-138 | the line (0,0)-(4,0) is exactly (0,0), (1,0), ..., (4,0) |
| Display.AdmittedConcat | src/display.cpp:62 | a batch passes the assertion exactly when both halves do |
| Triangle.SortY | src/triangle.cpp:12-23 | after the three conditional swaps y0 <= y1 <= y2, and the vertices are a permutation of the inputs |
| Triangle.SortByY | src/triangle.cpp:12-23 | the swaps that exchange x and y separately leave each x with its own y, the result of `SortY` |
| Triangle.SortCornersY | src/triangle.cpp:101-118 | the textured swaps sort by y and keep every (x, y, u, v) bundle together, as a permutation |
| Triangle.SortCornersByY | src/triangle.cpp:101-118 | the four-way swaps compute `SortCornersY` |
| Triangle.DrawTriangle | src/triangle.cpp:4-8 | the buffer becomes `Paint` of the lines v0->v1, v1->v2, v2->v0 in this order |
| Triangle.Outline | src/triangle.cpp:4-8 | computes the wireframe pixels: the lines v0 -> v1, v1 -> v2 and v2 -> v0, in this order |
| Triangle.LineConnected | src/display.cpp:118-153 | consecutive pixels of a Bresenham line are equal or 8-neighbours |
| Triangle.OutlineClosed | src/triangle.cpp:4-8 | the wireframe is a closed 8-connected walk from v0 through v1 and v2 back to v0, as long as its three lines together |
| Triangle.Trunc | src/triangle.cpp:26 | the `f32` to `i32` conversion truncates toward zero |
| Triangle.MidX | src/triangle.cpp:26 | computes mx, the truncated x where the row of the middle vertex meets the edge v0 -> v2 |
| Triangle.MidXBetween | src/triangle.cpp:25-26 | for sorted vertices with y0 < y2 the split point mx lies between x0 and x2 |
| Triangle.TruncBetween | src/triangle.cpp:26 | truncation of a value between two integers stays between them |
| Triangle.Ascending | src/triangle.cpp:34-36 | the flat-bottom slope pair is swapped into slope_1 <= slope_2 |
| Triangle.Descending | src/triangle.cpp:56-58 | the flat-top slope pair is swapped into slope_1 >= slope_2 |
| Triangle.Slopes | src/triangle.cpp:31-58 | the two passes get ordered slopes |
| Triangle.ExtentOrder | src/triangle.cpp:45-68 | from ordered starts with ordered slopes the extents stay ordered on every row |
| Triangle.ExtentLine | src/triangle.cpp:45-46 | the accumulated row extent after k rows is x + k·slope |
| Triangle.Span | src/triangle.cpp:42-44 | computes the pixels of one row: x from the truncated start while x <= x_end |
| Triangle.BottomRows | src/triangle.cpp:38-47 | computes the flat-bottom pass: rows y0 up to my, both extents moving forward by their slopes |
| Triangle.TopRows | src/triangle.cpp:60-69 | computes the flat-top pass: rows y2 down to y1, both extents moving back by their slopes |
| Triangle.ScanPoints | src/triangle.cpp:25-70 | computes the pixels of both passes for vertices sorted by y, with the ordered slopes |
| Triangle.FilledPoints | src/triangle.cpp:10-71 | computes the pixels of draw_filled_triangle: the vertices sorted by y, then both passes |
| Triangle.SpanMember | src/triangle.cpp:42-44 | a row holds exactly the pixels from its start to its end |
| Triangle.BottomMember | src/triangle.cpp:41-47 | row y0 + k of the flat-bottom pass is the span between the extents after k rows, for the rows y0..my |
| Triangle.TopMember | src/triangle.cpp:63-69 | row y2 - k of the flat-top pass is the span between the extents after k rows, for the rows y2 down to y1 |
| Triangle.ScanRows | src/triangle.cpp:41-63 | the pixels of both passes are those of rows y0..y1 of the flat-bottom pass and rows y1..y2 of the flat-top pass; row y1 is in both |
| Triangle.RowsNotEmpty | src/triangle.cpp:34-69 | because the slopes are ordered, every row with a non-negative start contains its first pixel |
| Triangle.TexelIndex | src/triangle.cpp:90 | computes i = 64·tex_y + tex_x in `u32` arithmetic |
| Triangle.Texel | src/triangle.cpp:85-94 | computes the buffer after draw_texel: texture[i] written at (x, y) only when i < 4096 |
| Triangle.TexelEffect | src/triangle.cpp:85-94 | draw_texel writes texture[i] at (x, y) exactly when the `u32` index i = 64·tex_y + tex_x is below 4096, and changes nothing otherwise |
| Triangle.TexelCheckQuirks | src/triangle.cpp:85-94 | tex_x = 64 in row 0 gives the same index as tex_x = 0 in row 1; tex_y = 2^26 wraps the `u32` index to 0; (63, 63) is the last texel and (0, 64) the first index rejected |
| Triangle.StrokeSolid | src/triangle.cpp:42-44 | a one-colour pass is the fold of draw_pixel |
| Triangle.Stroke | src/triangle.cpp:41-69 | computes the buffer after a pass paints its pixels in order, each with draw_pixel or draw_texel, and keeps its length |
| Triangle.StrokeConcat | src/triangle.cpp:41-69 | painting two pixel runs in turn is painting their concatenation |
| Triangle.StrokeAdmittedConcat | src/triangle.cpp:41-44 | a run of pixels passes the assertion of the pixel it writes exactly when both halves do |
| Triangle.DrawDab | src/triangle.cpp:43 | one pixel of a pass is draw_pixel in the solid colour, or draw_texel for the textured pass |
| Triangle.DrawTexel | src/triangle.cpp:73-95 | the buffer becomes `Texel`: the guarded write of the texel |
| Triangle.DrawSpan | src/triangle.cpp:42-44 | the inner loop paints the row's `Span` in order |
| Triangle.DrawBottomPass | src/triangle.cpp:38-47 | the flat-bottom loop paints `BottomRows` in order |
| Triangle.DrawTopPass | src/triangle.cpp:60-69 | the flat-top loop paints `TopRows` in order |
| Triangle.DrawScan | src/triangle.cpp:25-70 | split point, slopes, swaps and both passes paint `ScanPoints` |
| Triangle.DrawFilledTriangle | src/triangle.cpp:10-71 | the buffer becomes `Paint` of `FilledPoints`: sorted vertices, both passes in one colour |
| Triangle.DrawTexturedTriangle | src/triangle.cpp:97-168 | the buffer becomes the stroke of the sorted corners' passes, each pixel through draw_texel |
| Mesh.LoadCubeMeshData | src/mesh.cpp:40-58 | the mesh holds the 8 vertices, 12 faces and 12 colours in table order, with scale (1, 1, 1) |
| Mesh.CubeTables | src/mesh.cpp:4-38 | every cube face index lies in 1..8, and faces 2k and 2k + 1 share their diagonal and their colour |
| Mesh.CubeSides | src/mesh.cpp:4-33 | the three corners of each face lie in the plane of its side of the cube |
| Mesh.KeywordTagsNumbered | src/mesh.cpp:183-192 | keyword i gets the tag numbered i + 1, never INT, FLOAT or IDENTIFIER |
| Mesh.I32RoundTrip | src/mesh.cpp:78-101 | an `i32` stored in the payload union reads back unchanged |
| Mesh.PeekAt | src/mesh.cpp:127-133 | peek gives '\0' at or past the end and the character under the cursor otherwise |
| Mesh.PeekNextAt | src/mesh.cpp:135-141 | peek_next gives '\0' when cursor + 1 is at or past the end, and the next character otherwise |
| Mesh.RunEnd | src/mesh.cpp:144-146 | a `while (kind(peek())) advance();` loop stops at the end of the run of that kind |
| Mesh.NumberEnd | src/mesh.cpp:143-156 | number() consumes only digits and '.' |
| Mesh.KeywordEnd | src/mesh.cpp:168-179 | keyword() consumes only graphic characters |
| Mesh.KeywordEndIsGraphRun | src/mesh.cpp:168-179 | keyword() stops exactly at the end of the run of graphic characters |
| Mesh.KeywordIndex | src/mesh.cpp:183-192 | the index of the first keyword equal to the word, or 9 exactly when the word is no keyword |
| Mesh.FindKeyword | src/mesh.cpp:185-192 | the search loop returns the first matching keyword index, or 9 |
| Mesh.KeywordFrom | src/mesh.cpp:185-192 | the search from index i returns the first matching keyword at or after i, or 9 when none matches |
| Mesh.Stoi | src/mesh.cpp:163 | std::stoi of a lexeme, when it does not throw, is an `i32` |
| Mesh.StoiDecimal | src/mesh.cpp:163 | std::stoi reads back every `i32` written in decimal, with a '-' before a negative one, and throws for every magnitude outside `i32` |
| Mesh.StoiNoDigits | src/mesh.cpp:163 | std::stoi throws on a lone "-" and on an empty lexeme, and reads "-0" as 0 |
| Mesh.NumberValue | src/mesh.cpp:159-165 | for an integer lexeme the payload is missing exactly when std::stoi throws, and otherwise reads back through the `i32` member as the value of std::stoi |
| Mesh.NumberStep | src/mesh.cpp:143-166 | computes number(): the cursor past the digits and any fraction, then one FLOAT token with the converted payload, or the aborted state with no new token when the conversion throws |
| Mesh.WordToken | src/mesh.cpp:183-195 | computes the end of keyword(): a keyword's own tag with payload 0, or a new identifier and an IDENTIFIER token carrying its index |
| Mesh.KeywordStep | src/mesh.cpp:168-196 | computes keyword(): the cursor moved to the end of the graphic run, then `WordToken` of the word read |
| Mesh.Step | src/mesh.cpp:198-227 | scan_token consumes at least one character and never moves past the end |
| Mesh.LexFrom | src/mesh.cpp:310-313 | the driver loop ends with the cursor at the end of the buffer, unless a conversion threw; an aborted state is left as it is |
| Mesh.Lexer.constructor | src/mesh.cpp:85-92 | the lexer starts at cursor 0, line 1, previous line 0, with no tokens and no identifiers |
| Mesh.Lexer.Advance | src/mesh.cpp:96 | advance returns the character under the cursor and moves the cursor by one |
| Mesh.Lexer.AddToken | src/mesh.cpp:98-113 | add_token_* appends one token and changes nothing else |
| Mesh.Lexer.SkipRun | src/mesh.cpp:144-171 | a skip loop moves the cursor to `RunEnd` and changes nothing else |
| Mesh.Lexer.Number | src/mesh.cpp:143-166 | number() has the effect `NumberStep`: a FLOAT token whether or not the lexeme has a fraction, or the aborted state when std::stoi or std::stof throws |
| Mesh.Lexer.Keyword | src/mesh.cpp:168-196 | keyword() has the effect `KeywordStep` |
| Mesh.Lexer.AddWord | src/mesh.cpp:183-195 | the end of keyword() has the effect `WordToken`: a keyword gets its own tag; any other word is appended to id_buffer and its token carries its index as a `u32` |
| Mesh.Lexer.ScanToken | src/mesh.cpp:198-227 | scan_token has the effect `Step` |
| Mesh.Lexer.Lex | src/mesh.cpp:310-313 | the driver loop has the effect `LexFrom` and ends with cursor == size unless a conversion threw |
| Mesh.StepLineFree | src/mesh.cpp:201-224 | when the character under the cursor is not '\n', scan_token consumes no newline and keeps cursor_line and cursor_prev_line |
| Mesh.StepTracksLines | src/mesh.cpp:206-223 | cursor_line stays one more than the newlines before the cursor, and a report gives the 1-based line and column |
| Mesh.LexTracksLines | src/mesh.cpp:206-209 | lexing keeps cursor_line and cursor_prev_line exact for the cursor, and when no conversion threw cursor_line ends one more than the number of newlines in the file |
| Mesh.LexNeverInt | src/mesh.cpp:159-165 | no token is ever tagged INT |
| Mesh.StepAppends | src/mesh.cpp:98-113 | scan_token appends at most one token, and an identifier's token carries the count of identifiers before it |
| Mesh.StepIndexesIds | src/mesh.cpp:194-195 | scan_token keeps every IDENTIFIER token pointing at its own word in id_buffer |
| Mesh.LexIndexesIds | src/mesh.cpp:194-195 | lexing keeps the identifiers indexed |
| Mesh.Lexed | src/mesh.cpp:310-313 | lexing a file from the initial state ends at its end unless a conversion threw, tracks the lines, emits no INT token and indexes every identifier |
| Mesh.Stride | src/mesh.cpp:316-332 | the loop moves past a token by 4 after VERTEX, 8 after FACE and 1 otherwise |
| Mesh.AssembleMesh | src/mesh.cpp:315-334 | the loop builds the mesh of `Vertices` and `Faces` of the token list |
| Mesh.Vertices | src/mesh.cpp:318-323 | computes the vertices the loop collects: each VERTEX gives the `f32` payloads of the next three tokens |
| Mesh.Faces | src/mesh.cpp:324-328 | computes the faces the loop collects: each FACE gives the `i32` payloads of the tokens 1, 4 and 7 after it |
| Mesh.LoadObj | src/mesh.cpp:310-334 | load_obj gives no mesh exactly when a conversion threw, and otherwise the assembly of the tokens of the whole file |
| Mesh.LoneMinusAborts | src/mesh.cpp:217-218 | a '-' with no digit after it makes lexing "- " abort before any token |
| Mesh.AssemblyShift | src/mesh.cpp:316-332 | assembly from a position in a suffix does not depend on what precedes it |
| Mesh.AssemblyConcat | src/mesh.cpp:316-332 | the mesh of two concatenated well-formed token lists is the concatenation of their meshes |
| Mesh.VertexLine | src/mesh.cpp:318-323 | the tokens of `v x y z` give one vertex of the three `f32` payloads |
| Mesh.FaceLine | src/mesh.cpp:324-328 | the tokens of `f a/b/c d/e/f g/h/i` give one face (a, d, g), 1-based, and the loop skips 7 tokens |
| Frame.ModesAreBits | src/main.cpp:23-32 | every RenderMode value is a single bit, and no two share one |
| Frame.Dispatch | src/main.cpp:235-275 | dots only in WIREFRAME_REDDOT, fill only in FILL and FILL_WIREFRAME, texture only in TEXTURED and TEXTURED_WIREFRAME, outline in every mode except FILL and TEXTURED |
| Frame.App.constructor | src/main.cpp:13-41 | the globals start as TEXTURED_WIREFRAME, black wireframe, culling and colour on, no triangles |
| Frame.Respond | src/main.cpp:68-111 | computes the switch of input(): quit and Escape clear is_running, keys 1 to 6 set the mode and keys 1, 2, 4 and 6 the wireframe colour, C/D and V/F set the two flags, and any other event changes nothing |
| Frame.App.Input | src/main.cpp:64-113 | input() sets the settings to `Respond` of the old settings and the event, and changes nothing else |
| Frame.RespondKeepsOk | src/main.cpp:68-111 | every event keeps the mode among the declared ones and the wireframe colour black or green, and never sets is_running again |
| Frame.InitialOk | src/main.cpp:13-41 | the initial settings are among the declared ones |
| Frame.ModeKeys | src/main.cpp:77-98 | keys 1 and 2 give a green wireframe, 4 and 6 a black one, 3 and 5 keep the colour; each sets its mode and nothing else |
| Frame.ToggleKeys | src/main.cpp:68-111 | C/D set cull_mode, V/F set use_color, Escape and quit clear is_running, any other event changes nothing |
| Frame.RespondIdempotent | src/main.cpp:68-111 | the same event delivered twice has the effect of one delivery |
| Frame.Clamp01 | src/main.cpp:116-121 | the factor is clamped into [0, 1] |
| Frame.ScaledFloor | src/main.cpp:124-126 | a channel scaled by a factor in [0, 1] and truncated stays within the channel, 0 for factor 0 and unchanged for factor 1 |
| Frame.LightChannels | src/main.cpp:123-128 | the result keeps the alpha byte, and each colour byte is the scaled channel masked to that byte |
| Frame.LightBytesIndependent | src/main.cpp:123-128 | each byte of the result depends only on the same byte of the input |
| Frame.OrMasks | src/main.cpp:123-128 | or-ing the alpha byte with the three masked channels keeps each byte of its own operand |
| Frame.LightDark | src/main.cpp:116-128 | a factor of 0 or less yields `color & 0xff000000` |
| Frame.LightFull | src/main.cpp:119-128 | a factor of 1 or more returns the colour unchanged |
| Frame.LightApplyIntensity | src/main.cpp:115-131 | computes light_apply_intensity: the factor clamped to [0, 1], alpha kept, each colour channel scaled, truncated and masked back to its own byte |
| Frame.TriOf | src/main.cpp:190-217 | an emitted triangle carries its face's points, uv and depth, and the lit fill colour with an opaque alpha |
| Frame.TrisAppend | src/main.cpp:219 | the triangles of two runs of faces are the triangles of each run, in order |
| Frame.PushStep | src/main.cpp:183-219 | one turn of the face loop pushes face k's triangle exactly when it is kept |
| Frame.App.PushFaces | src/main.cpp:148-220 | the face loop appends the triangles of exactly the kept faces, in face order, and changes nothing else |
| Frame.KeptAll | src/main.cpp:148-188 | with cull_mode off every face is emitted: n / 3 faces, the j-th being face j |
| Frame.KeptStep | src/main.cpp:148-188 | the kept faces from face k are face k, when it passes the culling test, followed by the kept faces from k + 1 |
| Frame.KeptAllFrom | src/main.cpp:148-188 | with cull_mode off, faces k to n / 3 - 1 are kept in order |
| Frame.KeptSound | src/main.cpp:183-188 | every emitted face is a face of the buffer that passes the culling test |
| Frame.KeptComplete | src/main.cpp:183-188 | every face that passes the culling test is emitted; with culling on only faces of negative alignment are dropped |
| Frame.KeptFaces | src/main.cpp:148-188 | computes the faces the loop keeps from face k on, in face order: all of them with culling off, otherwise those whose alignment is not negative |
| Frame.FaceLoopWraps | src/main.cpp:148-149 | with fewer than two indices, `vertices - 2` wraps to 2^64 - 2 + n and the loop enters |
| Frame.FaceLoopBound | src/main.cpp:148 | `vertices - 2` on `size_t` is below 2^64 |
| Frame.FaceLoopGuard | src/main.cpp:148-149 | from two indices on, `i < vertices - 2` holds exactly when face i, i + 1, i + 2 lies in the buffer |
| Frame.InsertPerm | src/main.cpp:223-225 | inserting keeps every triangle and adds the new one |
| Frame.InsertSorted | src/main.cpp:223-225 | inserting into a list in non-increasing depth keeps it so |
| Frame.InsertBounded | src/main.cpp:223-225 | inserting keeps every depth below a common bound |
| Frame.SortByDepthSorts | src/main.cpp:223-225 | the sorted list is a permutation of the input in non-increasing average depth |
| Frame.SortByDepth | src/main.cpp:223-225 | computes one ordering std::sort may give: insertion by non-increasing average depth |
| Frame.Turned | src/main.cpp:134-137 | update()'s change to the mesh keeps its vertices, faces, colours, scale and the x and y of its translation |
| Frame.App.Update | src/main.cpp:133-226 | update() turns the mesh, keeps the settings, and leaves a permutation of the old list plus the kept faces' triangles, in non-increasing depth |
| Frame.OutlineOnTop | src/main.cpp:235-275 | in every mode a triangle gets one to four calls, and the outline, when drawn, is drawn last in the wireframe colour |
| Frame.DotCalls | src/main.cpp:235-242 | computes the WIREFRAME_REDDOT calls: a 4x4 rectangle in dot_color at each truncated vertex |
| Frame.FillCalls | src/main.cpp:244-249 | computes the fill call of the two fill modes: draw_filled_triangle on the truncated vertices in the triangle's colour |
| Frame.TextureCalls | src/main.cpp:251-266 | computes the texture call of the two textured modes |
| Frame.WireCalls | src/main.cpp:268-275 | computes the outline call of the four outline modes, in the wireframe colour |
| Frame.TriangleCalls | src/main.cpp:235-275 | computes the calls for one triangle in the order render() tests the mode: dots, fill, texture, outline |
| Frame.RenderCalls | src/main.cpp:232-276 | computes the calls for a list of triangles, in list order |
| Frame.RenderCallsSnoc | src/main.cpp:232-276 | the calls of one more triangle come after the calls of the triangles before it |
| Frame.JobOf | src/main.cpp:235-275 | a drawable call becomes the pixel run and brush its drawing function paints with, which is textured exactly for the texture call |
| Frame.Strokes | src/main.cpp:232-276 | computes the buffer after each call paints its pixel run in turn, and keeps its length |
| Frame.IssueConcat | src/main.cpp:232-276 | two lists of admissible calls issued in turn paint what their concatenation paints, and the concatenation is admissible |
| Frame.OutlineVertices | src/triangle.cpp:4-8 | a wireframe whose pixels pass draw_pixel's assertion has three vertices that pass it |
| Frame.ClearKeepsRowBelow | src/main.cpp:271-282 | an outline through (0, height) passes draw_pixel's assertion and paints cell width·height, which the clear at the end of render() leaves in the wireframe colour |
| Frame.App.RenderDots | src/main.cpp:235-242 | the dot calls paint the buffer as `Strokes` of their pixel runs |
| Frame.App.RenderFill | src/main.cpp:244-249 | the fill call paints the buffer as `Strokes` of its pixel run |
| Frame.App.RenderTexture | src/main.cpp:251-266 | the texture call paints the buffer as `Strokes` of its textured pixel run |
| Frame.App.RenderWire | src/main.cpp:268-275 | the outline call paints the buffer as `Strokes` of its pixel run |
| Frame.App.RenderTriangle | src/main.cpp:233-275 | one turn of the loop paints the buffer as `Strokes` of the triangle's calls, in order |
| Frame.ClearAfterGrid | src/main.cpp:229-282 | clearing after draw_grid gives the same buffer as clearing alone |
| Frame.App.Render | src/main.cpp:228-285 | render() draws the grid and then the calls of the first `u32(size)` triangles in order, empties the list, and clears the first width·height cells to 0xff222222; cells past them keep what the draws wrote |
| Vector.InitData | src/vector.hpp:25-33 | the initializer-list loops copy the list and zero the remaining entries |
| Vector.Vec2Of | src/vector.hpp:25-33 | `Vec2f{...}` copies two given values; with fewer, y is 0, and the empty list gives (0, 0) |
| Vector.Vec3Of | src/vector.hpp:75-83 | `Vec3f{...}` copies three given values; with fewer, z is 0, and the empty list gives (0, 0, 0) |
| Vector.Vec4Of | src/vector.hpp:159-168 | `Vec4f{...}` always sets w to 1, even from four values; from three or more values it copies x, y, z; the empty list gives (0, 0, 0, 1) |
| Vector.NewVec2 | src/vector.hpp:25-33 | the constructor's loops compute `Vec2Of` |
| Vector.NewVec3 | src/vector.hpp:75-83 | the constructor's loops compute `Vec3Of` |
| Vector.NewVec4 | src/vector.hpp:159-168 | the constructor's loops compute `Vec4Of` |
| Vector.DefaultVec4 | src/vector.hpp:157 | the default `Vec4f` has w = 1; x, y and z keep the previous contents of the storage |
| Vector.Extend | src/vector.hpp:170-175 | `Vec4f(Vec3f)` copies x, y, z and sets w to 1 |
| Vector.Vec2FromVec4 | src/vector.cpp:3-7 | `Vec2f(Vec4f)` yields (v.x, v.y) |
| Vector.Vec3FromVec4 | src/vector.cpp:9-13 | `Vec3f(Vec4f)` yields (v.x, v.y, v.z) |
| Vector.TruncateIgnoresW | src/vector.cpp:3-13 | neither conversion reads w |
| Vector.TruncateExtend | src/vector.cpp:9-13 | `Vec3f(Vec4f(v)) == v` for every `Vec3f` v |
| Vector.Add2 | src/vector.hpp:41 | computes (a.x + b.x, a.y + b.y) |
| Vector.Sub2 | src/vector.hpp:43 | computes (a.x - b.x, a.y - b.y) |
| Vector.Mul2 | src/vector.hpp:45 | computes `operator*(Vec2f)` as written: (a.x·b.x, a.y·b.x) |
| Vector.Hadamard2 | src/vector.hpp:45 | computes the component-wise product (a.x·b.x, a.y·b.y) that `operator*(Vec2f)` is evidently meant to give |
| Vector.Scale2 | src/vector.hpp:47 | computes (a.x·s, a.y·s) |
| Vector.Div2 | src/vector.hpp:49 | computes (a.x / b.x, a.y / b.y) for non-zero components |
| Vector.DivScalar2 | src/vector.hpp:51 | computes (a.x / s, a.y / s) for non-zero s |
| Vector.Vec2Laws | src/vector.hpp:41-51 | for `Vec2f`, adding then subtracting the same vector gives it back, addition commutes, dividing by a non-zero scalar undoes scaling by it, and dividing by (s, s) is dividing by s |
| Vector.Dot2 | src/vector.hpp:57 | computes a.x·b.x + a.y·b.y |
| Vector.Add3 | src/vector.hpp:92 | computes the component-wise sum |
| Vector.Sub3 | src/vector.hpp:94 | computes the component-wise difference |
| Vector.Mul3 | src/vector.hpp:96 | computes `operator*(Vec3f)` as written: (a.x·b.x, a.y·b.x, a.z·b.z) |
| Vector.Hadamard3 | src/vector.hpp:96 | computes the component-wise product that `operator*(Vec3f)` is evidently meant to give |
| Vector.Scale3 | src/vector.hpp:98 | computes each component times s |
| Vector.Div3 | src/vector.hpp:100 | computes the component-wise quotient for non-zero components |
| Vector.DivScalar3 | src/vector.hpp:102 | computes each component divided by a non-zero s |
| Vector.Dot3 | src/vector.hpp:104-106 | computes a.x·b.x + a.y·b.y + a.z·b.z |
| Vector.Cross | src/vector.hpp:108-111 | computes (a.y·b.z - a.z·b.y, a.z·b.x - a.x·b.z, a.x·b.y - a.y·b.x) |
| Vector.Add4 | src/vector.hpp:182 | computes the sum of x, y and z; the initializer list sets w to 1 |
| Vector.Sub4 | src/vector.hpp:184 | computes the difference of x, y and z; the initializer list sets w to 1 |
| Vector.Mul4 | src/vector.hpp:186 | computes `operator*(Vec4f)` as written, y times v.x, with w set to 1 by the initializer list |
| Vector.Hadamard4 | src/vector.hpp:186 | computes the component-wise product of x, y and z that `operator*(Vec4f)` is evidently meant to give, with w set to 1 |
| Vector.Scale4 | src/vector.hpp:188 | computes x, y and z times s, with w set to 1 |
| Vector.Div4 | src/vector.hpp:190 | computes the quotient of x, y and z by non-zero components, with w set to 1 |
| Vector.DivScalar4 | src/vector.hpp:192 | computes x, y and z divided by a non-zero s, with w set to 1 |
| Vector.Dot4 | src/vector.hpp:194-196 | computes the four-term dot product, w included |
| Vector.AddSub3 | src/vector.hpp:92-94 | adding then subtracting the same vector gives it back; addition commutes |
| Vector.Vec4OpsResetW | src/vector.hpp:182-192 | every `Vec4f` operator returns w = 1, so `a - a` is (0, 0, 0, 1) |
| Vector.ScaleDiv3 | src/vector.hpp:98-102 | dividing by a non-zero scalar undoes scaling by it |
| Vector.Mul2UsesXForY | src/vector.hpp:45 | `Vec2f::operator*(Vec2f)` multiplies y by v.x, which differs from the component-wise product |
| Vector.Mul3UsesXForY | src/vector.hpp:96 | `Vec3f::operator*(Vec3f)` multiplies y by v.x, which differs from the component-wise product |
| Vector.Mul3NotCommutative | src/vector.hpp:96 | because of that, the `Vec3f` product does not commute |
| Vector.Mul4UsesXForY | src/vector.hpp:186 | `Vec4f::operator*(Vec4f)` multiplies y by v.x, which differs from the component-wise product |
| Vector.HadamardLaws | src/vector.hpp:45 | the component-wise products commute and have the all-ones vector as unit (for `Vec4f` up to the reset of w to 1) |
| Vector.DotSymmetric | src/vector.hpp:57 | `dot` is symmetric in all three types |
| Vector.CrossLaws | src/vector.hpp:108-111 | cross(a, b) == -cross(b, a), cross(a, a) == 0, and the cross product is orthogonal to both operands |
| Vector.RotateX | src/vector.hpp:121-127 | rotate_x keeps x |
| Vector.RotateY | src/vector.hpp:129-135 | rotate_y keeps y |
| Vector.RotateZ | src/vector.hpp:137-143 | rotate_z keeps z |
| Vector.RotateXInverse | src/vector.hpp:121-127 | on the unit circle, rotating by (c, -s) undoes the rotation by (c, s) |
| Matrix.Zero | src/matrix.hpp:20 | the value-initialised matrix is square and all zero |
| Matrix.RowAssertAdmitsMissingRows | src/matrix.hpp:7-17 | `operator[]` checks the row index against size() = n·n, so row 15 of a `Mat4x4f` and row 8 of a `Mat3x3f` pass the assertion though neither exists |
| Matrix.RowInRangeExact | src/matrix.hpp:69-79 | checking against the row count admits exactly the rows, each of which also passes the written check |
| Matrix.Identity | src/matrix.hpp:57-63 | identity() has 1 on the diagonal and 0 elsewhere |
| Matrix.Scale4 | src/matrix.hpp:150-160 | `Mat4x4f::scale` is the identity with its first diagonal entries multiplied by the arguments; the others stay 1 |
| Matrix.Scale3 | src/matrix.hpp:45-55 | `Mat3x3f::scale` starts from zero, so diagonal entries without an argument are 0 |
| Matrix.Translate | src/matrix.hpp:162-172 | translate() is the identity with the arguments down column 3 |
| Matrix.TranslatePoint | src/matrix.hpp:93-104 | a translation applied to a point with w = 1 gives (x + tx, y + ty, z + tz, 1) |
| Matrix.RowDot | src/matrix.hpp:95-102 | computes row i of the matrix times v, summed over the first k columns |
| Matrix.MulVec | src/matrix.hpp:93-104 | computes the 4x4 matrix-vector product, component i being row i times v, w included |
| Matrix.RowDotUnfold | src/matrix.hpp:95-102 | the row sum is the written four-term expression |
| Matrix.MulVecRows | src/matrix.hpp:93-104 | component i of the matrix-vector product is row i dotted with v |
| Matrix.MulVec3 | src/matrix.hpp:31-37 | the 3x3 matrix-vector product is the 4x4 product on the embedded matrix and the extended vector, truncated |
| Matrix.MulVecIdentity | src/matrix.hpp:93-104 | the identity leaves every vector unchanged |
| Matrix.RotationX | src/matrix.hpp:112-119 | rotation_x differs from the identity only at [1][1], [1][2], [2][1], [2][2] |
| Matrix.RotationY | src/matrix.hpp:121-128 | rotation_y differs from the identity only at [0][0], [0][2], [2][0], [2][2] |
| Matrix.RotationZ | src/matrix.hpp:130-137 | rotation_z differs from the identity only at [0][0], [0][1], [1][0], [1][1] |
| Matrix.RotationXAgrees | src/matrix.hpp:112-119 | rotation_x applied to `Vec4f(v)` gives rotate_x(v) with w = 1 |
| Matrix.RotationYAgrees | src/matrix.hpp:121-128 | rotation_y applied to `Vec4f(v)` gives rotate_y(v) with w = 1 |
| Matrix.RotationZAgrees | src/matrix.hpp:130-137 | rotation_z applied to `Vec4f(v)` gives rotate_z(v) with w = 1 |
| Matrix.Perspective | src/matrix.hpp:139-148 | only [0][0], [1][1], [2][2], [2][3] and [3][2] = 1 may be non-zero, with the written values |
| Matrix.PerspectiveKeepsDepth | src/matrix.hpp:101-148 | the projected w equals the input z |
| Matrix.Product | src/matrix.hpp:81-91 | the conventional product b·a is square |
| Matrix.RowCol | src/matrix.hpp:84-88 | computes row i of b times column j of a, summed over the first k terms |
| Matrix.AddTerm | src/matrix.hpp:85-87 | the innermost loop adds a[k][m]·b[r][k] to entry (r, m) of every row and changes nothing else |
| Matrix.FillColumn | src/matrix.hpp:84-88 | the two inner loops make entry (r, m) row r of b times column m of a |
| Matrix.Mul | src/matrix.hpp:19-29 | `operator*(a, b)` computes c[n][m] = sum over k of b[n][k]·a[k][m], the product b·a |
| Matrix.ProductIdentity | src/matrix.hpp:81-91 | the identity is a two-sided unit of the product |

## Left out

- SDL window, renderer, texture, event polling and `SDL_RenderPresent` are not modelled. `render_frame_buffer` and the frame-pacing loop of `main()` are not modelled either. They are I/O and timing. An event is a parameter of `App.Input`.
- The DDA `draw_line` is not modelled, because it is rounding-sensitive floating point. `barycentric_weights` and the `f32` rounding of the scanline extents are left out for the same reason. The extents are exact reals, and the barycentric texture lookup is the parameter `texCoord`.
- The floating-point pipeline of `update()` is the parameter `geom`. It covers the world matrix, the normals, the culling dot product, the lighting factor, the projection, the viewport mapping and the average depth. `update()`'s culling, lighting, emission and sorting of its results are modelled.
- `sin`, `cos` and `tan` are not modelled; the rotations and `perspective` take their values as parameters. `std::stof` and reading a float out of a token payload are also parameters; `std::stof` returns no value where it would throw `std::out_of_range`. File reading in `load_obj` is replaced by the buffer given as a string.
- Frame.App.Update: `std::sort` is unspecified among equal depths, so the contract states only its promise, a permutation in non-increasing depth. The body uses one such ordering, an insertion sort.
- Frame.App.Render: the precondition asks every call to pass draw_pixel's assertion at each pixel it writes and, for fills and textures, a triangle that is not flat. The source asserts the first and has no defined result without the second. The barycentric texture lookup is the parameter `texCoord`, and the texture is a sequence of at least 64·64 texels.
- Frame.App.Render: `render_frame_buffer` copies the buffer to the screen before the clear. The model has no screen; the buffer it would show is the `Strokes` term inside the postcondition.
- Frame.ScaledFloor: `(color & mask) * factor` is an `f32` product. It is modelled as the exact real product truncated toward zero.
- Display.FrameBuffer.DrawPixel: the precondition is the non-strict assertion of draw_pixel. A write that the assertion lets through always lands inside the 4·w·h buffer.
- Triangle.DrawFilledTriangle: all three vertices on one row (y0 == y2) is excluded. There `mx` divides 0 by 0 and converts the NaN to `i32`, which has no defined result.
- src/main.cpp does not agree with the headers. It reads `uv_buffer` and `uv_index_buffer`, which `Mesh` in src/mesh.hpp does not declare. It indexes `index_buffer` as a flat array of vertex numbers, and it builds triangles with `uv` and four-component points, which `triangle` in src/triangle.hpp lacks. The model follows src/main.cpp: the face loop runs over the `size()` of the index buffer three entries at a time, and the per-face values come from `geom`.
- `render()` passes z, w, u and v for each vertex to `draw_textured_triangle`, but the definition in src/triangle.cpp takes x, y, u and v only. The model follows the definition.
- Mesh.AssembleMesh: a VERTEX or FACE token too close to the end of the list makes the source read past `token_buffer`. The precondition `Assemblable` excludes it.
- Mesh.LoadCubeMeshData: the source leaves rotation and translation uninitialised, so the caller passes them. `load_obj` also leaves scale uninitialised.
- Mesh.Stoi: std::stoi also skips leading white space and accepts a '+' sign. number() never passes either, so the model reads only an optional '-' and the digits after it.
- Mesh.Lexer: each character of the buffer stands for one byte of the file. `isdigit`, `isalpha` and `isgraph` on a byte above 127, which is a negative `char`, are undefined in C; the model classifies such a byte as no digit, letter or graphic character, so it is reported as unexpected.
- Mesh.LoadObj: a file that cannot be opened gives `tellg() == -1` and a buffer resize the model does not follow; the buffer is a parameter.
- Mesh: `id_buffer` stores `word.data()` of a local string, a pointer that dangles. The model stores the word itself.
- Mesh.StepIndexesIds: the count of identifiers must fit the `u32` payload. Past 2^32 identifiers the stored index would wrap.
- Vector: division by a zero component, `len` and `norm` (square roots) are not modelled.
- src/core.hpp, src/display.hpp, src/mesh.hpp and src/triangle.hpp are declarations only; their constants appear where they are used. texture.hpp is not part of this model.

## Findings

| source | as written | input that shows it | evidently intended | confidence | as-written member | corrected member |
|---|---|---|---|---|---|---|
| src/vector.hpp:45, src/vector.hpp:96, src/vector.hpp:186 | `operator*(Vec)` computes `y * v.x` | (1, 1, 1) * (1, 2, 1) gives y = 1, not 2 | `y * v.y`, the component-wise product | not executed | Vector.Mul3UsesXForY | Vector.HadamardLaws |
| src/matrix.hpp:7-17, src/matrix.hpp:69-79 | `operator[]` asserts `i < size()`, where size() = rows·cols | row 15 of a `Mat4x4f` passes the assertion | `i < rows()` | not executed | Matrix.RowAssertAdmitsMissingRows | Matrix.RowInRangeExact |
| src/main.cpp:148-149 | `i < vertices - 2` on `size_t` | an index buffer with 0 or 1 entries: the bound wraps and the loop reads entries 0, 1, 2 | visit face i only while i + 2 < vertices | not executed | Frame.FaceLoopWraps | Frame.App.PushFaces |
