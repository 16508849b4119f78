# FarmFun render core in Dafny

A model of two pieces of the FarmFun rendering layer, with proofs about them.

- **The render engine's command buffer** (`Engine`, from `src/render/render.cpp`). Draw requests become command objects. A command is fetched fresh and marked `used`, then given its text parameters, then appended to the pending list. `Render` runs every pending command once, in submission order. It marks each one unused and then empties the list. The engine also keeps the 3×3 normalization matrix that maps view pixels to normalized device coordinates.
- **The glyph table of the text renderer** (`Glyphs`, from `src/render/render.cpp`). `BuildTextCharConfig` clears the character→glyph map and inserts one glyph per entry of the parsed character configuration. It then inserts a blank glyph for the space character. Insertion follows the map's `insert`, which never overwrites a key. So the first entry for a character wins, and the blank space glyph is dropped when an entry already defines the space. `FindCharInfo` follows `operator[]`: a miss adds the key, mapped to null.
- **Geometry value types** (`Geometry`, from `src/render/common.hpp`). This covers the rectangle's derived right, bottom and centre, where Y grows upwards (`bottom = top - height`). It also covers the text paint's defaults and text-size scale, and rotation of a point about a pivot.

Modelling choices:

- Arithmetic is over `real`. IEEE float rounding is not modelled.
- `sin` and `cos` of a rotation angle are the parameters `s` and `c`.
- Shared pointers to glyphs become `Option<CharInfo>`, where null is `None`.
- The parsed configuration document is a `seq<CharEntry>`.
- Texture acquisition is a function `acquire` from a path to a texture id. It is applied to `"text/" + name`.
- Running a command is recorded as an event appended to `drawLog`. What the command draws is not modelled.
- The glyph key is the first character of the entry's value. For an empty wide string, C++ `operator[]` at `size()` yields the terminator, so the key is NUL (`'\0'`).
- `normalMatrix[i, j]` is glm's `normalMatrix_[i][j]`, that is, column `i` and row `j`.

## Model

| member | source | states |
|---|---|---|
| `Geometry.RotateAbout` | src/render/common.hpp:27-45 | rotating the pivot itself gives the pivot; with sin 0 and cos 1 every point is unchanged |
| `Geometry.RotatePreservesDistance` | src/render/common.hpp:27-45 | with s² + c² = 1 the rotated point keeps its distance to the pivot |
| `Geometry.RotateCompose` | src/render/common.hpp:27-45 | two rotations about one pivot equal one rotation by the summed angle (angle-addition formulas for sin and cos) |
| `Geometry.RotateQuarterTurn` | src/render/common.hpp:39-40 | a quarter turn takes (1, 0) about the origin to (0, 1): the rotation is counter-clockwise |
| `Geometry.Point.constructor` | src/render/common.hpp:13-16 | the default point is (0, 0) |
| `Geometry.Point.At` | src/render/common.hpp:18 | the point holds the given coordinates |
| `Geometry.Point.Rotate` | src/render/common.hpp:27-45 | the point's new coordinates are the rotation of its old ones about (cx, cy) |
| `Geometry.Rect.Right` | src/render/common.hpp:79-81 | right minus left is the width; right is not left of left when width ≥ 0 |
| `Geometry.Rect.Bottom` | src/render/common.hpp:83-85 | top minus bottom is the height, so bottom ≤ top when height ≥ 0 (Y grows upwards) |
| `Geometry.Rect.Center` | src/render/common.hpp:87-92 | the centre is a new point at the midpoint of left/right and of bottom/top, equidistant from opposite edges, and inside the rectangle when its sizes are non-negative |
| `Geometry.SizeScale` | src/render/common.hpp:105-107 | the scale times the 64-unit reference size is the requested size; the scale is 1 exactly for size 64 |
| `Geometry.TextPaint.constructor` | src/render/common.hpp:98-103 | a default paint has scale 1, gap 4, opaque white colour, normal style and left gravity |
| `Geometry.TextPaint.SetTextSize` | src/render/common.hpp:105-107 | the scale becomes size / 64 and no other field changes |
| `Glyphs.InsertIfAbsent` | src/render/render.cpp:150 | map insertion adds the key and keeps every existing value, including an existing value under the inserted key |
| `Glyphs.TableKeys` | src/render/render.cpp:124-151 | after the entry loop the keys of the map are exactly the first characters of the entries, and no value is null |
| `Glyphs.TableFirstWins` | src/render/render.cpp:126-151 | the glyph stored under a character is built from the first entry with that character: its width, height, texture coordinates and texture id |
| `Glyphs.SpaceEntry` | src/render/render.cpp:157-171 | the space key is always present after the build; it holds the blank glyph (space width, height 0, zero texture coordinates, texture 0) when no entry defines the space, else the first such entry's glyph |
| `Glyphs.BuiltTable` | src/render/render.cpp:124-157 | the built map's keys are the entries' keys plus the space, no value is null, and every entry's key holds the first matching entry's glyph |
| `Glyphs.Find` | src/render/render.cpp:110-112 | a lookup of a present key returns its value and leaves the map unchanged; a miss returns null and adds the key mapped to null; no other key changes |
| `Glyphs.FindIdempotent` | src/render/render.cpp:110-112 | looking the same character up twice answers the same as once and changes the map no further |
| `Glyphs.LookupAfterBuild` | src/render/render.cpp:110-157 | after the build, looking up an entry's character returns that entry's glyph when it is the first with that character, and the map is left unchanged |
| `Glyphs.TextRenderHelper.constructor` | src/render/render.cpp:53 | a new helper has an empty glyph map |
| `Glyphs.TextRenderHelper.BuildTextCharConfig` | src/render/render.cpp:115-158 | the map is rebuilt from empty as the entries inserted in order plus the blank space glyph; the main texture id is that of the last entry, unchanged when there are none |
| `Glyphs.TextRenderHelper.AddSpecialTextCharInfo` | src/render/render.cpp:161-172 | the blank space glyph is inserted without overwriting an existing space entry |
| `Glyphs.TextRenderHelper.FindCharInfo` | src/render/render.cpp:110-112 | the answer and the new map are those of `Find` on the old map |
| `Engine.RenderCommand.constructor` | src/render/render.cpp:96-97 | a new command is bound to its engine and carries no text parameters yet |
| `Engine.RenderCommand.PutParams` | src/render/render.cpp:79 | the command records the text, its anchor and its paint |
| `Engine.RenderCommand.PutTextParamsByRectLimit` | src/render/render.cpp:89 | the command records the text, its bounding rectangle and its paint |
| `Engine.NormalMatrix` | src/render/render.cpp:57-70 | the normalization matrix is a 3×3 matrix, given column by column |
| `Engine.PixelToNdc` | src/render/render.cpp:57-70 | the matrix maps pixel (px, py) to (2px/w − 1, 2py/h − 1) and keeps the homogeneous coordinate 1 |
| `Engine.ViewCornersToNdc` | src/render/render.cpp:57-70 | the view's bottom-left corner, centre and top-right corner map to (−1, −1), (0, 0) and (1, 1) |
| `Engine.RenderEngine.Render` | src/render/render.cpp:11-26 | every pending command runs exactly once, in list order; afterwards each is marked unused with its parameters kept, and the pending list is empty |
| `Engine.RenderEngine.RunCommands` | src/render/render.cpp:19 | running a command appends exactly that command to the draw log |
| `Engine.RenderEngine.ClearRenderCommands` | src/render/render.cpp:34-36 | the pending list becomes empty |
| `Engine.RenderEngine.ResetNormalMat` | src/render/render.cpp:57-70 | cell [0][0] is 2/w and [1][1] is 2/h; [2][0] and [2][1] are −1 and [2][2] is 1; every other cell is 0; the array equals `NormalMatrix(w, h)` cell by cell |
| `Engine.RenderEngine.SubmitRenderCommand` | src/render/render.cpp:72-74 | exactly one command is appended at the end; earlier entries are unchanged and keep their order |
| `Engine.RenderEngine.RenderTextAt` | src/render/render.cpp:76-81 | the pending list always grows by exactly one, even for empty text; the new last command is fresh, marked used, bound to this engine and carries the text, anchor and paint; earlier entries are unchanged |
| `Engine.RenderEngine.RenderTextInRect` | src/render/render.cpp:83-91 | empty text leaves the pending list unchanged; otherwise it grows by exactly one fresh, used command carrying the text, rectangle and paint |
| `Engine.RenderEngine.FetchTextRenderCommand` | src/render/render.cpp:93-100 | the result is a fresh command marked used and bound to this engine; the engine's state, including the pending list, is not changed |

## Left out

- Graphics calls are not modelled: `glClearColor`, `glClear` and `glViewport`.
- What a command draws (the body of `runCommands`) is defined outside these files. Running a command is only recorded in `drawLog`.
- `VRamManager::onPostRender` after a render pass is not modelled. It is a foreign resource manager.
- `RenderEngine::free` and the shader and texture manager singletons are not modelled. They are foreign resource managers.
- `init`, `loadTextRenderResource` and `loadRes` are not modelled as operations. Apart from creating a fresh helper (`TextRenderHelper`'s constructor) and the build (`BuildTextCharConfig`), they only log and load a shader.
- `onScreenResize` is not modelled. It reads the view and screen sizes from the application context, passes the screen size to `glViewport`, and updates the matrix through `ResetNormalMat`.
- Reading `text/char_config.json` and parsing it as JSON are not modelled. These are file I/O and an unseen library, so the model receives the parsed entries. The code handles no missing or ill-typed field, so there is no error path.
- The wide-to-byte conversion `ToByteString` of texture names is not modelled: names are plain strings.
- A texture acquisition that fails, whose null handle the code would dereference, is not modelled: `acquire` is a total function.
- Text layout is not modelled: `putParams` and `putTextParamsByRectLimit` are defined outside these files. A command only records the parameters it was given.
- Logging is not modelled.
- Glyph keys are Dafny `char`s, which are Unicode scalar values. The `wchar_t` code units of the source are not modelled: where `wchar_t` is 16 bits, a character outside the Basic Multilingual Plane is keyed by its leading UTF-16 surrogate, so two such glyphs would share a key; the model gives each its own key and cannot express a lone surrogate.
- `render.hpp` and `command.hpp` are not part of this model. Hence:
  - a command holds the caller's `TextPaint` by reference, so a later change to that paint is seen by a pending command; whether the source copies the paint is not visible in these files;
  - one class `RenderCommand` stands for both the command base class and the text command, the only subclass these files create; its `NoParams` stands for a command that carries no text;
  - the value of `SPACE_WIDTH` is the constant `spaceWidth`, fixed when a helper is constructed;
  - the glyph width and height are integers, as the configuration supplies them;
  - the initial `used` flag of a new command is not stated, since only `FetchTextRenderCommand` sets it;
  - the engine's constructor is modelling glue with no counterpart in these files.
- Floating-point behaviour is not modelled: arithmetic is exact over `real`, and `sin`/`cos` are the parameters `s` and `c`.
- `Paint`, `ShapeType` and `FillStyle` in `common.hpp` are not modelled. They are declarations that the modelled code does not use.
- `src/game/test_demo.hpp` is not modelled: it holds declarations only.
- ResetNormalMat: requires a non-zero width and height. With zero, the source's float division yields infinities, which exact real arithmetic cannot express.
