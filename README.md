# A model of the WebGL scene viewer's engine core

This project models three parts of a small browser scene viewer's engine and proves
properties of them. The viewer draws a list of scene objects with WebGL, moves a camera
from the keyboard and mouse, and converts colours between `#RRGGBB` strings and RGBA values.

- **`ColorUtils`** (`color_utils.dfy`, pure). It models the `Color` record and the hex codec of
  `color-utils.js`:
  - `hexToColor` parses an optional `#` and three case-insensitive digit pairs. Each
    channel becomes `value / 255` and alpha is 1. A string the pattern rejects gives `None`,
    where the source indexes the failed match and throws.
  - `componentToHex` and `colorToHex` write integer channels in lower-case hex.
  - Round trips are proved in both directions.
- **`InputHandling`** (`input.dfy`, imperative). It models the `Input` class of `input.js`:
  - a class with the same six fields;
  - one method per event handler, plus `initialize`;
  - `processInput` over a `Camera` object whose `position` and `rotation` it reassigns.

  `processInput` is split into `MoveCamera` (the six conditional adds and the position
  update) and `TurnCamera` (the drag rotation and the consumed flag). `ProcessInput` calls
  them in source order. Each is proved against a specification function: `PositionDelta`
  and `RotationDelta`.
- **`Render`** (`render.dfy`, imperative). It models `renderScene` of `webgl.js` as a
  `Renderer` class:
  - `Renderer` stands for the WebGL context. It appends one `Command` to its `trace` per
    state-changing WebGL call and hands out buffer names from a counter. Its invariant
    `Valid` keeps every name created so far below the counter, so a new name was never
    handed out before.
  - `RenderScene` runs the frame set-up and then a loop over the objects.
  - `RenderObject` is the `forEach` callback, built from one method per block of the source.
  - Every method's new trace is tied to a specification function:
    - `Emit`: the command itself;
    - `AttributeBuffer`: `BufferCommands`;
    - `UploadGeometry`: `GeometryCommands`;
    - `SetMaterial`: `MaterialCommands`;
    - `DrawPolygons`: `PolygonCommands`;
    - `DrawEdges`: `EdgeCommands`;
    - `FinishObject`: `ObjectTail`;
    - `DrawBody`: `ObjectBody`;
    - `RenderObject`: `ObjectPass`;
    - `SetLight`: `LightCommands`;
    - `SetFrame`: `HeaderCommands`;
    - `RenderScene`: `FramePass`, through loop invariants over `ScenePass`.

    The lemmas state what the source promises about those functions.
- `Vectors` (`vectors.dfy`) holds the `vec3` operations `add`, `scale` and `negate` over
  exact reals. `Wrappers` (`wrappers.dfy`) holds `Option`.

Decisions worth knowing:
- A frame can abort. With `drawEdges` set and an edge colour that `hexToColor` rejects, the
  source throws inside the object loop. The model stops there:
  - the calls already made stay in the trace;
  - `RenderScene` returns `false`;
  - `SceneCompletes` states exactly when this happens.
- `hexToColor` is pure, so `RenderScene` parses the edge colour once before the loop rather
  than once per object. The throw is still placed at the first visible object, before its
  wireframe pass.
- `vertices.length / 3` is a JavaScript division. `drawArrays` receives its integer part,
  which the model writes as `|vertices| / 3`.

## Model

| member | source | states |
|---|---|---|
| ColorUtils.ColorDefaults | public/scripts/engine/color-utils.js:8-20 | `new Color()` is (0, 0, 0, 1). Omitting alpha gives 1. `asVector` lists r, g, b, a in that order. |
| ColorUtils.HexToColor | public/scripts/engine/color-utils.js:28-31 | A colour comes back exactly when the string is six hex digits, with or without one leading `#`, in either case. |
| ColorUtils.HexToColorChannels | public/scripts/engine/color-utils.js:29-30 | Each channel of a parsed colour is its digit pair read in base 16, divided by 255, so it lies in [0, 1]. Alpha is 1. |
| ColorUtils.HashIsOptional | public/scripts/engine/color-utils.js:29 | Six digits with or without a leading `#` parse to the same result. |
| ColorUtils.NatToHexCorrect | public/scripts/engine/color-utils.js:39 | `toString(16)` of a natural number writes lower-case digits that read back as the number. It writes one digit exactly below 16, at most two below 256 and at least three from 256 on. |
| ColorUtils.ComponentToHex | public/scripts/engine/color-utils.js:38-41 | For 0..255 the result is exactly two lower-case digits (padded with `0` below 16), and they read back as the channel. |
| ColorUtils.ComponentToHexUnpadded | public/scripts/engine/color-utils.js:38-41 | A non-negative value reads back from its digits. A negative one is written as `-` and its digits. From 256 on nothing is padded and at least three digits are written. |
| ColorUtils.ColorToHex | public/scripts/engine/color-utils.js:50-52 | For byte channels the result is `#` and the two digits of r, then g, then b. |
| ColorUtils.ColorToHexBytes | public/scripts/engine/color-utils.js:50-52 | For byte channels the string has length 7, starts with `#` and is accepted by `hexToColor`'s pattern. Its three pairs read back as r, g and b. |
| ColorUtils.HexExamples | public/scripts/engine/color-utils.js:38-52 | `componentToHex(5)` is `"05"` and `componentToHex(255)` is `"ff"`. `colorToHex(0,0,0)` is `"#000000"` and `colorToHex(255,255,255)` is `"#ffffff"`. |
| ColorUtils.HexRoundTrip | public/scripts/engine/color-utils.js:28-52 | For byte channels, `hexToColor(colorToHex(r, g, b))` is (r/255, g/255, b/255, 1). |
| ColorUtils.ColorToHexOfPairs | public/scripts/engine/color-utils.js:38-52 | `colorToHex` of three pair values writes the six digits back in lower case. |
| ColorUtils.ParsedChannels | public/scripts/engine/color-utils.js:29-30 | Each channel of a parsed colour, scaled back by 255, is its pair's value. |
| ColorUtils.ColorRoundTrip | public/scripts/engine/color-utils.js:28-52 | For any accepted string, `colorToHex` of its channels scaled by 255 is `#` plus the string's six digits in lower case. |
| InputHandling.DefaultBindsCoverActions | public/scripts/engine/input.js:23-28 | The bind table has six distinct key codes, and every action has a key. |
| InputHandling.ReleasedCoversActions | public/scripts/engine/input.js:29-34 | Whatever the action table held, after the writes every action is present and released. |
| InputHandling.BindsMerge | public/scripts/engine/input.js:23-28 | The six writes to the bind table merge codes 87, 65, 83, 68, 69, 81 → forward, left, backward, right, up, down into it. |
| InputHandling.ActionsMerge | public/scripts/engine/input.js:29-34 | The six writes to the action table merge "all six actions released" into it. |
| InputHandling.AxisHeld | public/scripts/engine/input.js:107-124 | The two conditional adds of one axis sum to the axis vector times (+1, -1 or 0) times the step. |
| InputHandling.MovementAccumulates | public/scripts/engine/input.js:102-124 | The six conditional adds in source order produce `PositionDelta`: one signed term per held action along forward, right and up. |
| InputHandling.NoActionNoMove | public/scripts/engine/input.js:107-126 | With no action held the position delta is zero. |
| InputHandling.AxisCancels | public/scripts/engine/input.js:107-124 | Holding both actions of an axis gives it the same coefficient, 0, as holding neither. |
| InputHandling.SameAxesSameMove | public/scripts/engine/input.js:107-124 | The position delta depends on the held actions only through the three axis coefficients. |
| InputHandling.OppositeActionsCancel | public/scripts/engine/input.js:107-112 | Holding forward and backward together moves the camera exactly as holding neither. |
| InputHandling.ForwardOnly | public/scripts/engine/input.js:99-109 | With only forward held, the position delta is `forward * 5 * deltaSeconds`. |
| InputHandling.TurnsIffDragged | public/scripts/engine/input.js:100-133 | The rotation delta is non-zero iff the button is pressed, a move is pending, the frame time is non-zero and the drag moved. Its first component is always 0. |
| InputHandling.Camera.constructor | public/scripts/engine/objects.js:71-72 | A camera holds the position and rotation it is given, as the `Camera` constructor passes them on to be stored. These are the fields `processInput` reassigns. |
| InputHandling.Input.constructor | public/scripts/engine/input.js:10-17 | Empty bind and action tables, button up, delta (0, 0), no previous position, no pending move. |
| InputHandling.Input.Initialize | public/scripts/engine/input.js:22-34 | The bind table gains the six default binds and the action table gains all six actions released. Nothing else changes. |
| InputHandling.Input.OnKeyUp | public/scripts/engine/input.js:48-53 | A bound key sets its action to false. An unbound key changes nothing. Only the action table may change. |
| InputHandling.Input.OnKeyDown | public/scripts/engine/input.js:58-63 | A bound key sets its action to true. An unbound key changes nothing. Only the action table may change. |
| InputHandling.Input.OnMouseUp | public/scripts/engine/input.js:68-70 | Only `mousePressed` changes, to false. |
| InputHandling.Input.OnMouseDown | public/scripts/engine/input.js:75-77 | Only `mousePressed` changes, to true. |
| InputHandling.Input.OnMouseMove | public/scripts/engine/input.js:82-93 | The first move gives delta (0, 0). Later moves give current minus previous. Every move stores the current position and marks the move pending. |
| InputHandling.Input.ProcessInput | public/scripts/engine/input.js:98-137 | The new position is the old one plus `PositionDelta`. The new rotation is the old one plus `RotationDelta` of the pending move. The pending flag ends cleared. Nothing is clamped or wrapped. |
| InputHandling.Input.MoveCamera | public/scripts/engine/input.js:99-126 | The six conditional adds leave the camera at its old position plus `PositionDelta`. |
| InputHandling.Input.TurnCamera | public/scripts/engine/input.js:128-136 | The rotation gains `RotationDelta` of the pending move, and the pending flag is cleared whether or not the button is down. |
| InputHandling.PressAfterInitialize | public/scripts/engine/input.js:22-63 | After `initialize` and one key press, a bound key holds exactly its action and any other key holds nothing. |
| InputHandling.ProcessTwice | public/scripts/engine/input.js:128-136 | Over two `processInput` calls with no mouse move between them, only the first turns the camera. |
| Render.Renderer.constructor | public/scripts/engine/webgl.js:193 | A fresh context has an empty trace, hands out buffer names from 0 and satisfies `Valid`. |
| Render.Renderer.Emit | public/scripts/engine/webgl.js:194-306 | One WebGL call appends exactly that command to the trace. |
| Render.Renderer.NewBuffer | public/scripts/engine/webgl.js:270-284 | `createBuffer` returns the counter's value and records its creation. The name differs from every buffer already created. `Valid` is kept. |
| Render.Renderer.AttributeBuffer | public/scripts/engine/webgl.js:270-274 | One buffer block: create, bind, upload the data, describe the attribute with its size, and enable it. The name differs from every buffer created before. |
| Render.Renderer.SetMaterial | public/scripts/engine/webgl.js:244-266 | The model and normal matrices, the material (colour, white ambient, shininess), the texture flag and, when it is bound, the texture calls. |
| Render.Renderer.UploadGeometry | public/scripts/engine/webgl.js:268-288 | Three buffer blocks (vertices of size 3, normals of size 3, texture coordinates of size 2) under three consecutive names, all above every buffer created before. The first is returned. |
| Render.Renderer.DrawPolygons | public/scripts/engine/webgl.js:290-294 | Only when `drawPolygons` is set: the lighting flag, polygon offset (0, 0), then a triangle draw. |
| Render.Renderer.DrawEdges | public/scripts/engine/webgl.js:298-303 | Edge colour as diffuse, lighting 0, texture 0, polygon offset (1, 1), then a line-loop draw. |
| Render.Renderer.FinishObject | public/scripts/engine/webgl.js:296-306 | With `drawEdges` and an unparsed colour, it throws and makes no call. Otherwise it makes the wireframe pass (if on) and then deletes the vertex buffer. |
| Render.Renderer.RenderObject | public/scripts/engine/webgl.js:239-307 | One callback's calls, buffer names and outcome are `ObjectPass` of the object. `Valid` is kept. |
| Render.Renderer.DrawBody | public/scripts/engine/webgl.js:244-294 | A visible object's calls up to its wireframe pass are `ObjectBody`. It uses three buffer names and returns the vertex buffer and `vertices.length / 3`. |
| Render.Renderer.SetLight | public/scripts/engine/webgl.js:200-216 | A light's diffuse, ambient and specular colours, and its position with the given w. |
| Render.Renderer.SetFrame | public/scripts/engine/webgl.js:194-226 | The frame set-up's calls are `HeaderCommands`. |
| Render.Renderer.RenderScene | public/scripts/engine/webgl.js:193-308 | The calls of `renderScene`, the buffer names used and whether it ran to its end are `FramePass` of its arguments. |
| Render.ScenePassExtends | public/scripts/engine/webgl.js:239 | One more round of the `forEach` loop appends the next object's calls in list order. |
| Render.ScenePassStops | public/scripts/engine/webgl.js:239-297 | Once an object has thrown, later objects add nothing. |
| Render.MaterialCount | public/scripts/engine/webgl.js:244-266 | The matrix, material and texture calls include no draw and no buffer creation or deletion. |
| Render.BufferCount | public/scripts/engine/webgl.js:270-274 | A buffer block creates exactly one buffer and makes no draw or deletion. |
| Render.GeometryCount | public/scripts/engine/webgl.js:268-288 | An object's buffer blocks create exactly three buffers. |
| Render.PolygonCount | public/scripts/engine/webgl.js:290-294 | The filled pass draws one triangle draw iff `drawPolygons` is set, and nothing else counted. |
| Render.EdgeCount | public/scripts/engine/webgl.js:298-303 | The wireframe pass draws exactly one line loop, and nothing else counted. |
| Render.BodyCount | public/scripts/engine/webgl.js:244-294 | Before its wireframe, an object makes three creations and, if `drawPolygons` is set, one triangle draw. |
| Render.ObjectCounts | public/scripts/engine/webgl.js:239-307 | A visible object that does not throw makes one triangle draw iff `drawPolygons`, one line-loop draw iff `drawEdges`, three creations and one deletion, and uses three buffer names. |
| Render.InvisibleObjectsSkipped | public/scripts/engine/webgl.js:240-242 | The loop over a scene gives the same calls, names and outcome as the loop over its visible objects alone. |
| Render.ObjectThrows | public/scripts/engine/webgl.js:240-297 | An object throws iff it is visible, `drawEdges` is set and the edge colour is rejected. |
| Render.SceneCompletes | public/scripts/engine/webgl.js:239-307 | The loop runs to its end iff it is not the case that `drawEdges` is set, the edge colour is rejected and some object is visible. |
| Render.SceneCounts | public/scripts/engine/webgl.js:239-307 | A loop that runs to its end makes, per visible object, one triangle draw iff `drawPolygons`, one line loop iff `drawEdges`, three creations and one deletion. |
| Render.SceneBuffers | public/scripts/engine/webgl.js:268-288 | A loop that runs to its end uses three buffer names per visible object. |
| Render.HeaderLayout | public/scripts/engine/webgl.js:194-226 | The set-up is 15 calls starting with the colour clear and then the depth clear. Call 6 uploads the point light's position with w = 1 and call 10 the directional light's with w = 0, and no other 4-component uniform is sent. No draw and no buffer creation or deletion. |
| Render.FrameCounts | public/scripts/engine/webgl.js:193-308 | A frame that runs to its end has, in total, the per-visible-object counts above, and uses 3 buffer names per visible object. |
| Render.DrawsCoverVertices | public/scripts/engine/webgl.js:268-304 | Every draw of an object starts at 0 and covers `vertices.length / 3` vertices. |
| Render.FilledBeforeWireframe | public/scripts/engine/webgl.js:290-304 | An object's triangle draw comes before its line-loop draw. |
| Render.OnlyVertexBufferDeleted | public/scripts/engine/webgl.js:270-306 | The object's last call deletes the buffer that was created and filled with the vertices. The normal and texture buffers are created, and no other buffer is deleted. |
| Render.TextureOnlyWhenBound | public/scripts/engine/webgl.js:261-266 | `u_texture` is set, to the object's texture, iff the texture is not -1. `u_useTexture` is first set to 0 for -1 and to 1 otherwise. |
| Render.TextureScaleOnlyWhenBound | public/scripts/engine/webgl.js:261-266 | `u_textureScale` is set, to the object's texture scale, iff the texture is not -1. |
| Render.LightingFlagValues | public/scripts/engine/webgl.js:290-301 | `u_useLighting` is only ever 0, or 1 when `drawLight` is set and the object is not the point light. |
| Render.FilledPass | public/scripts/engine/webgl.js:290-294 | With `drawPolygons` set, the three calls right after the buffer blocks are: the lighting flag, polygon offset (0, 0), and the triangle draw of `vertices.length / 3` vertices. |
| Render.LitWhenAllowed | public/scripts/engine/webgl.js:290-293 | With `drawPolygons` and `drawLight` set, and the object not the point light, `u_useLighting` is 1 on the call just before the polygon offset and the triangle draw. So the triangle draw is lit. |
| Render.WireframeLast | public/scripts/engine/webgl.js:296-306 | With `drawEdges` set, the last six calls are the edge colour as diffuse, lighting 0, texture 0, offset (1, 1), the line-loop draw, then the deletion. |
| Render.HeaderSetsFrameUniformsOnce | public/scripts/engine/webgl.js:197-226 | The set-up sets each of the 11 frame uniforms (camera position, 4 per light, view, projection) exactly once, and no other uniform. |
| Render.ObjectLeavesFrameUniforms | public/scripts/engine/webgl.js:244-306 | An object's calls never set a frame uniform. |
| Render.SceneLeavesFrameUniforms | public/scripts/engine/webgl.js:239-307 | The object loop never sets a frame uniform. |
| Render.FrameUniformsOnce | public/scripts/engine/webgl.js:193-308 | In a whole frame each frame uniform is set exactly once, and within the first 15 calls, before any call made for an object. |
| Render.SceneInOrder | public/scripts/engine/webgl.js:239 | Objects are handled in list order: the loop over `a + b` is the loop over `a` followed by the loop over `b`. |
| Render.ObjectMaterial | public/scripts/engine/webgl.js:252-259 | Diffuse and specular are the object's colour, ambient is (1, 1, 1), and shininess is the page's setting. |
| Render.NoPassesNoDraws | public/scripts/engine/webgl.js:290-304 | With `drawPolygons` and `drawEdges` both off, a frame runs to its end and draws nothing. |

## Left out

- The DOM and jQuery listener registration in `initialize` (input.js lines 36-42) is not modelled: it is browser I/O. The handlers it installs are modelled as methods.
- The camera's forward, right and up vectors are parameters of `processInput`. The model assumes the camera has the three getters `processInput` calls (input.js lines 103-105), and that each returns its basis vector. The `Camera` class in objects.js (lines 69-128) defines only `getUpVector`. Nothing in the source defines `getForwardVector` or `getRightVector`, so on that class `processInput` as written throws a `TypeError` at input.js line 103. That throw is not modelled.
- Matrices are opaque `seq<real>` values. The object getters in `renderScene` become fields of the `SceneObject` record, and so do colour, texture and texture scale. Apart from the two camera fields that the `Camera` stand-in keeps (objects.js lines 71-72 and 17-18), objects.js is not modelled. Its matrices are gl-matrix numerics, and its mesh loading is an asynchronous OBJ loader.
- Several record fields stand in for members the shown classes lack. The `SceneObject` class in objects.js (lines 9-64) has no `getNormalMatrix`, `getNormals`, `getTextureCoordinates`, `visible`, `texture` or `textureScale`, all of which `renderScene` reads. The model assumes an object provides them and takes them as fields.
- `object instanceof PointLight` is a boolean field of the object record. objects.js does not export the `PointLight` that webgl.js line 3 imports, so this class is assumed, not modelled.
- All arithmetic is exact `real`. Float32 rounding, `Float32Array` copies and the GPU's conversion of uniforms are not modelled.
- `getUniformLocation` and `getAttribLocation` are queries and are not recorded. `GL.ARRAY_BUFFER`, `GL.STATIC_DRAW`, `GL.FLOAT`, the stride and the offset are fixed constants folded into the `BindArrayBuffer`, `BufferStaticData` and `VertexAttribPointer` commands.
- `renderScene` passes uniform locations to `enableVertexAttribArray` (webgl.js lines 221, 226, 246, 250). These calls are recorded as made, with the uniform as their argument. What WebGL does with such an argument is not modelled.
- A throw out of `renderScene` is modelled as the frame stopping, with `RenderScene` returning `false`. What the page's render loop does with the exception is not part of the model.
- Render flags are booleans, and the texture unit and key codes are integers. JavaScript truthiness of other values (`undefined`, strings, `NaN`) is not modelled.
- `componentToHex` is modelled on integers only. `toString(16)` of a fractional number is not modelled.
- The other functions of webgl.js (context, shaders, textures, viewport, clear colour), the GLSL shaders, page.js and index.js are not part of this model. They are device set-up, GPU code, DOM glue and a static file server.
