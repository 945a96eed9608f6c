# OpenRW render core in Dafny

This project models two parts of OpenRW's rendering engine.

The first is `OpenGLRenderer`'s **device-state cache**. The private setters `setBlend`, `setDepthMode`, `setDepthWrite` and `attachUBO` compare a request with a cached field. They issue OpenGL calls only when the value differs, and then update the cache. Beside them sit the upload counter of `uploadUBO` and `OpenGLShaderProgram::getUniformLocation`, which asks the driver for a uniform's location once per name and memoises it in a map.

Every OpenGL call is modelled as an event appended to a trace (`GLState.Cmd`). The driver's `glGetUniformLocation` is an uninterpreted function held by the program object. A small model of the device (`GLState.Device`, `GLState.Apply`) gives each call its OpenGL meaning. With it, the model proves that the cache and the device stay in step.

The second is the **text renderer's glyph logic**:
- `charToIndex`;
- the integer grid cell of `indexToCoord`;
- the glyph-width table built by the `TextRenderer` constructor;
- `setFontTexture`;
- the per-character loop of `renderText`, which decides which characters produce a quad of six vertices and where each quad goes. `RenderText` uses the corrected newline reset described under "## Findings"; the layout as written is `TextLayout.TextGeometryAsWritten`.

Glyph widths are integer tenths of the text size (0.4 is 4, 1.0 is 10). Pen positions are exact and symbolic (`TextLayout.PenX`), so no floating point enters the model.

Layout:
- `gl_types.dfy`: GL integer types and unsigned increment.
- `gl_state.dfy`: modes, commands, per-setter emissions, and the device and its agreement lemmas.
- `call_sequences.dfy`: sequences of setter calls.
- `opengl_renderer.dfy`: the classes `OpenGLRenderer` and `OpenGLShaderProgram`.
- `glyphs.dfy`: glyph index, cell and width specifications.
- `text_layout.dfy`: the specification of the `renderText` loop.
- `text_renderer.dfy`: the class `TextRenderer`.

## Model

| member | source | states |
|---|---|---|
| `GLState.BlendCmds` | rwengine/src/render/OpenGLRenderer.hpp:360-383 | setBlend issues no call exactly when the mode equals the cached one, and at most two calls |
| `GLState.DepthModeCmds` | rwengine/src/render/OpenGLRenderer.hpp:385-394 | setDepthMode issues no call exactly when the mode equals the cached one, and at most two calls |
| `GLState.DepthWriteCmds` | rwengine/src/render/OpenGLRenderer.hpp:396-401 | setDepthWrite issues a single glDepthMask(enable) iff enable differs from the cache, otherwise nothing |
| `GLState.AttachUBOCmds` | rwengine/src/render/OpenGLRenderer.hpp:416-421 | attachUBO issues a single glBindBuffer(GL_UNIFORM_BUFFER, u) iff u differs from the bound buffer, otherwise nothing |
| `GLState.BlendTransitions` | rwengine/src/render/OpenGLRenderer.hpp:361-378 | NONE to ALPHA is [enable BLEND, blendFunc(SRC_ALPHA, ONE_MINUS_SRC_ALPHA)]; NONE to ADDITIVE is [enable BLEND, blendFunc(ONE, ONE)]; ALPHA and ADDITIVE switch with only the new blendFunc; any mode to NONE is only disable BLEND; enable is issued iff leaving NONE |
| `GLState.DepthModeTransitions` | rwengine/src/render/OpenGLRenderer.hpp:385-394 | equal mode issues nothing; OFF to LESS is [enable DEPTH_TEST, depthFunc(LESS)]; LESS to OFF is only disable DEPTH_TEST |
| `GLState.SetBlendSyncsDevice` | rwengine/src/render/OpenGLRenderer.hpp:360-383 | if the device was in the cached blend mode, after setBlend's calls it is in the requested mode, and only its blend state changed |
| `GLState.SetDepthModeSyncsDevice` | rwengine/src/render/OpenGLRenderer.hpp:385-394 | if the device was in the cached depth mode, after setDepthMode's calls it is in the requested mode, and only depth-test state changed |
| `GLState.SetDepthWriteSyncsDevice` | rwengine/src/render/OpenGLRenderer.hpp:396-401 | from a device whose depth mask matches the cache, setDepthWrite's calls leave exactly the mask changed to the request |
| `GLState.AttachUBOSyncsDevice` | rwengine/src/render/OpenGLRenderer.hpp:416-421 | from a device whose uniform-buffer binding matches the cache, attachUBO's calls leave exactly that binding changed to the request |
| `GLState.BypassingTheCacheLeavesItStale` | rwengine/src/render/TextRenderer.cpp:168-169 | enabling alpha blending directly, as renderText does, while the cache holds BLEND_NONE makes setBlend(BLEND_NONE) issue nothing and leave blending on |
| `CallSequences.DeviceCallsEqualChanges` | rwengine/src/render/OpenGLRenderer.hpp:360-421 | for any setter that emits nothing exactly on an unchanged value, the number of calls reaching the device over a call sequence equals the number of value changes |
| `CallSequences.EverySetterEmitsOncePerChange` | rwengine/src/render/OpenGLRenderer.hpp:360-421 | over any call sequence of setBlend, setDepthMode, setDepthWrite or attachUBO, redundant calls issue nothing and each change issues something |
| `CallSequences.DepthMaskCountEqualsChanges` | rwengine/src/render/OpenGLRenderer.hpp:396-401 | over any sequence of setDepthWrite calls, the number of glDepthMask calls equals the number of flag changes |
| `CallSequences.AttachUBOTwiceBindsOnce` | rwengine/src/render/OpenGLRenderer.hpp:416-421 | attachUBO(u) twice in a row issues at most one bind, none when u is already bound |
| `CallSequences.ConsecutiveBlendRequests` | rwengine/src/render/OpenGLRenderer.hpp:360-383 | from NONE, ALPHA then ALPHA issues one enable and one blendFunc; ALPHA then ADDITIVE adds only a second blendFunc |
| `GLTypes.Increment` | rwengine/src/render/OpenGLRenderer.hpp:408 | `unsigned int` increment: one more, wrapping to 0 after 2^32 - 1 |
| `GLRenderer.CountUpload` | rwengine/src/render/OpenGLRenderer.hpp:407-409 | a profile entry gets its upload count incremented and no other counter changed |
| `GLRenderer.OpenGLRenderer.constructor` | rwengine/src/render/OpenGLRenderer.hpp:349-357 | cache fields start at their declared values (no buffer, no program, BLEND_NONE, OFF, depth write off, UBO 0, unit 0, no textures), no debug group, zeroed profile entries |
| `GLRenderer.OpenGLRenderer.SetBlend` | rwengine/src/render/OpenGLRenderer.hpp:360-383 | appends exactly BlendCmds(old mode, mode) to the trace; the blend field becomes the request and no other cache field changes |
| `GLRenderer.OpenGLRenderer.SetDepthMode` | rwengine/src/render/OpenGLRenderer.hpp:385-394 | appends exactly DepthModeCmds(old mode, mode); the depth field becomes the request and no other cache field changes |
| `GLRenderer.OpenGLRenderer.SetDepthWrite` | rwengine/src/render/OpenGLRenderer.hpp:396-401 | appends exactly DepthWriteCmds(old flag, enable); the depth-write field becomes the request and no other cache field changes |
| `GLRenderer.OpenGLRenderer.AttachUBO` | rwengine/src/render/OpenGLRenderer.hpp:416-421 | appends exactly AttachUBOCmds(old buffer, buffer); currentUBO becomes the request and no other cache field changes |
| `GLRenderer.OpenGLRenderer.UploadUBO` | rwengine/src/render/OpenGLRenderer.hpp:403-411 | when a debug group is open, only profileInfo[depth-1] changes, by one more upload; at depth 0 no entry changes |
| `GLRenderer.CStr` | rwengine/src/render/OpenGLRenderer.hpp:275-278 | `c_str()` as a C API sees it: the longest NUL-free prefix, ending where the string has its first NUL |
| `GLRenderer.PlainNameIsItsCStr` | rwengine/src/render/OpenGLRenderer.hpp:275-278 | a name without NUL characters passes to the driver unchanged |
| `GLRenderer.OpenGLShaderProgram.constructor` | rwengine/src/render/OpenGLRenderer.hpp:263-264 | a program object with the given name and an empty uniform map, with nothing asked of the driver yet |
| `GLRenderer.OpenGLShaderProgram.GetName` | rwengine/src/render/OpenGLRenderer.hpp:270-272 | returns the program object's name |
| `GLRenderer.OpenGLShaderProgram.GetUniformLocation` | rwengine/src/render/OpenGLRenderer.hpp:274-284 | returns the driver's location for the name. On a miss it queries once and inserts exactly that key. On a hit it neither queries nor changes the map. Every cached value is the driver's answer, and no name is ever queried twice |
| `GLRenderer.LookupAsWritten` | rwengine/src/render/OpenGLRenderer.hpp:274-284 | the code as written queries iff the C string is not a key, returns the stored or queried location, and inserts under the full name |
| `GLRenderer.EmbeddedNulQueriesEveryTime` | rwengine/src/render/OpenGLRenderer.hpp:274-284 | as written, looking up "a\0b" twice queries the driver both times |
| `GLRenderer.AsWrittenAgreesOnPlainNames` | rwengine/src/render/OpenGLRenderer.hpp:274-284 | for NUL-free names the code as written is the memoising lookup: a hit returns the stored value unchanged, a miss queries once and stores under the name |
| `Glyphs.CharToIndex` | rwengine/src/render/TextRenderer.cpp:7-40 | every result lies in [0, 90]; a recognised character ('!'..'/', digits, letters) maps to its ASCII code minus 32; every other character maps to 0 |
| `Glyphs.CharToIndexRanges` | rwengine/src/render/TextRenderer.cpp:9-20 | '0'..'9' map to 16..25, 'A'..'Z' to 33..58, 'a'..'z' to 65..90, '!'..'/' to 1..15, space and newline to 0 |
| `Glyphs.GlyphRoundTrip` | rwengine/src/render/TextRenderer.cpp:7-40 | charToIndex is a bijection between recognised characters and the glyph indices 1..25, 33..58, 65..90, with inverse GlyphChar |
| `Glyphs.CharToIndexInjective` | rwengine/src/render/TextRenderer.cpp:7-40 | distinct recognised characters get distinct, non-zero glyphs |
| `Glyphs.GridCell` | rwengine/src/render/TextRenderer.cpp:44-45 | with C++ truncating `/` and `%`, row*16 + column equals the index; for index >= 0 the column is in [0, 16) and the row is non-negative |
| `Glyphs.GlyphCellsDistinct` | rwengine/src/render/TextRenderer.cpp:44-45 | distinct glyphs have distinct cells; glyphs 0..90 lie in rows 0..5 |
| `Glyphs.GlyphWidthsByCharacter` | rwengine/src/render/TextRenderer.cpp:114-147 | space and every unrecognised character are 0.4; apostrophe is 0.5; i/I 0.4, l/L 0.5, m/M and w/W 1.0; every other letter 0.7; every other recognised character 1.0 |
| `Glyphs.OtherGlyphsFullWidth` | rwengine/src/render/TextRenderer.cpp:114-117 | every glyph that is not space, apostrophe or a letter keeps the width 1.0 |
| `Glyphs.CaseInsensitiveWidths` | rwengine/src/render/TextRenderer.cpp:121-147 | the upper and lower case of each letter have the same width |
| `TextRendering.TextRenderer.constructor` | rwengine/src/render/TextRenderer.cpp:108-148 | after the two loops every glyph g has width InitialWidth(g), and all font names are empty |
| `TextRendering.TextRenderer.SetFontTexture` | rwengine/src/render/TextRenderer.cpp:155-161 | fonts[index] becomes the texture when index is a valid slot; otherwise fonts is unchanged |
| `TextRendering.FontGuardAsWritten` | rwengine/src/render/TextRenderer.cpp:157 | the guard as written: for a non-negative index it admits exactly the existing slots, and it admits every negative index |
| `TextRendering.NegativeIndexPassesFontGuard` | rwengine/src/render/TextRenderer.cpp:157 | the guard as written, `index < GAME_FONTS`, admits index -1, which is no slot |
| `TextLayout.Quad` | rwengine/src/render/TextRenderer.cpp:208-215 | the six vertices pushed for one glyph all carry that glyph, its line, the pen before it and its width |
| `TextLayout.Step` | rwengine/src/render/TextRenderer.cpp:184-215 | one pass of the loop: a character that draws adds six vertices and any other adds none; a newline whose glyph is in the table moves to the next line, and every other character stays on its line |
| `TextLayout.LayoutStep` | rwengine/src/render/TextRenderer.cpp:182-216 | one loop step: an out-of-table glyph adds nothing; a newline adds nothing and moves to the next line's start; any other character adds its quad and advances the pen by its width |
| `TextLayout.VertexCount` | rwengine/src/render/TextRenderer.cpp:182-216 | the loop pushes exactly 6 vertices for each character whose glyph is in the table and that is not a newline, and none for the others |
| `TextLayout.FullTableDrawsAllButNewlines` | rwengine/src/render/TextRenderer.cpp:184-202 | with more than 90 glyphs in the table, the characters that draw are exactly the non-newlines |
| `TextLayout.LinesShareLeftEdge` | rwengine/src/render/TextRenderer.cpp:197-201 | when a newline returns to the line origin, no vertex's pen includes screenPosition.x, and every line number lies between the starting line and the starting line plus the text's newline count |
| `TextLayout.NewlineRestartsLine` | rwengine/src/render/TextRenderer.cpp:197-201 | whatever pen the text before a newline leaves, the text after it is laid out from the line start on line one past the newlines before it, exactly as a text of its own |
| `TextLayout.EveryLineStartsAtOrigin` | rwengine/src/render/TextRenderer.cpp:197-201 | with the corrected reset, the text after any newline starts at the line origin LineOrigin = PenX(false, 0), with no screenPosition.x, on line Newlines(before) + 1 |
| `TextLayout.TextGeometryAsWritten` | rwengine/src/render/TextRenderer.cpp:182-216 | the loop as written, with line 199's reset to screenPosition.x: 6 vertices per drawing character, and a vertex's pen includes screenPosition.x exactly when it is not on the first line |
| `TextLayout.LaterLinesShifted` | rwengine/src/render/TextRenderer.cpp:197-201 | with the reset as written, from a pen that includes screenPosition.x exactly off the first line, every vertex keeps that property |
| `TextLayout.SecondLineShiftedByScreenX` | rwengine/src/render/TextRenderer.cpp:197-201 | for "a\nb", as written the second line starts screenPosition.x to the right of the first; with the reset to the origin both start at the same x |
| `TextRendering.TextRenderer.RenderText` | rwengine/src/render/TextRenderer.cpp:182-216 | the loop with the newline reset corrected to the line origin: its vertices are exactly TextGeometry(text, widths), 6 per character that draws, which with a full glyph table is 6 per character that is not a newline |

## Left out

- OpenGL itself is not modelled, because the driver is a foreign library. `glEnable`, `glBlendFunc`, `glDepthFunc`, `glDepthMask` and `glBindBuffer` are trace events, and `GLState.Apply` gives their effect on a small device record. `glGetUniformLocation` is an uninterpreted function, and `glDeleteProgram` in the program's destructor is not modelled.
- `OpenGLRenderer.cpp` is not part of this model. The operations defined there are therefore not modelled: `draw`, `drawArrays`, `drawBatched`, `setDrawState`, `useTexture`, `useDrawBuffer`, `createUBO`, `uploadUBOEntry` (the ring-buffer cursor), `invalidate`, `pushDebugGroup`/`popDebugGroup`, `setViewport`/`get2DProjection`, `swap`, the counter getters, `createShader`, `useProgram`, the `setUniform*` overloads, `clear`, `setSceneParameters`, `setProgramBlockBinding` and the `OpenGLRenderer` constructor body. As a result `currentDebugDepth` changes only in code that is not modelled.
- GLRenderer.OpenGLRenderer.UploadUBO: only the statistics part is modelled. The call to `uploadUBOEntry` and the data argument are not, since `uploadUBOEntry` lives in `OpenGLRenderer.cpp`, which this model does not cover. The `RW_GRAPHICS_STATS` build switch is taken as on.
- GLRenderer.OpenGLRenderer.constructor: models only the field initialisers of lines 349-357 and 426-430. The constructor body lives in `OpenGLRenderer.cpp`, which this model does not cover, so whether it brings the driver into line with them is outside the model. OpenGL's initial depth mask is true while the cached flag starts false, so the agreement lemmas take agreement as a precondition rather than proving it at start-up.
- setBlend's `default: assert(false)` branch cannot be reached in the model, because `BlendMode` is a closed datatype with three values.
- `TextRenderer.hpp` is not part of this model. It defines `GAME_GLYPHS`, `GAME_FONTS` and the glyph record. The two counts are constructor parameters, and the constructor requires more than 90 glyphs because it writes the width of glyph 90 ('z').
- `renderText` floating-point geometry is not modelled: the text size, the float scaling of `indexToCoord` (the 16 or 13 rows per font), `maxWidth`, and the Left/Center/Right alignment arithmetic. Positions are kept symbolic instead (pen in tenths of the size, line number, quad corner). `TextInfo`'s font, size, colour, position and alignment enter only that arithmetic, so `RenderText` takes only the text.
- TextRendering.TextRenderer.RenderText: returns the pen to the line origin at a newline, not to `screenPosition.x` as line 199 does; the layout as written is `TextLayout.TextGeometryAsWritten` (see "## Findings").
- `renderText`'s calls around the loop are not modelled: `pushDebugGroup`/`popDebugGroup`, `useProgram`, the direct `glEnable`/`glBlendFunc`/`glActiveTexture`, the uniform settings, the vertex upload, the texture lookup and `drawArrays`. The effect of the direct blend calls on the cache is stated by `GLState.BypassingTheCacheLeavesItStale`.
- Widths 0.4, 0.5, 0.7 and 1.0 are the exact integers 4, 5, 7 and 10 tenths. Float rounding of the products with the text size is not modelled.
- The model's `string` stands for the sequence of C++ `char` values, one byte each. A multi-byte character is several `char`s in the code, and each of them draws glyph 0. A Dafny `char` above 255 stands for no C++ `char`. `char` signedness is not modelled; every value outside the listed ranges maps to glyph 0, as in the code.
- GLSL shader sources, vertex attribute descriptors (`VertexP2`, `VertexP3`, `TextVertex::vertex_attributes`) and `tests/test_Lifetime.cpp` are not modelled. They hold no logic of this core.

## Findings

| source | as written | input that shows it | evidently intended | confidence | as-written member | corrected member |
|---|---|---|---|---|---|---|
| rwengine/src/render/TextRenderer.cpp:157 | `if (index < GAME_FONTS) fonts[index] = texture;` checks only the upper bound of a signed `int` | `setFontTexture(-1, t)` passes the guard and writes outside `fonts` | write only when `0 <= index < GAME_FONTS` | high that -1 is admitted, assuming `GAME_FONTS` is a signed `int` constant (it is defined in `TextRenderer.hpp`, which is not part of this model; an unsigned constant would convert -1 to a large value and reject it); not executed | `TextRendering.NegativeIndexPassesFontGuard` | `TextRendering.TextRenderer.SetFontTexture` |
| rwengine/src/render/TextRenderer.cpp:199 | a newline sets `coord.x = ti.screenPosition.x`, while the shader also adds `screenPosition` (as `alignment`) to every vertex | text "a\nb" at screenPosition.x = 100: 'a' is drawn at x 100, 'b' at x 200 | a newline returns the pen to x 0, so every line starts at screenPosition.x | medium; not executed | `TextLayout.SecondLineShiftedByScreenX` | `TextRendering.TextRenderer.RenderText` |
| rwengine/src/render/OpenGLRenderer.hpp:275-279 | the lookup and the driver query use `name.c_str()` (cut at the first NUL), but the insert uses the full `name` | `getUniformLocation("a\0b")` twice: both calls miss and query the driver | look up and store under the same key, so a name is queried at most once | low (needs a NUL inside a uniform name); not executed | `GLRenderer.EmbeddedNulQueriesEveryTime` | `GLRenderer.OpenGLShaderProgram.GetUniformLocation` |
