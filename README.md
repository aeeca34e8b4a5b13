# Realtime-Rendering input and scene-state model

A Dafny model of the discrete, deterministic rules of an OpenGL tutorial
sandbox (the LearnOpenGL exercises). The model covers:

- the free-look **camera**'s input handlers: scroll zoom clamped to [1, 45],
  mouse yaw/pitch accumulation with the optional pitch clamp to [-89, 89], and
  keyboard steps on the ground plane;
- the **driver**'s per-frame input state machine: scene cycling with
  wrap-around, key-edge detection through the `*AlreadyPressed` flags, the
  wireframe toggle, the first-mouse latch and the cursor offsets, the scroll
  scaling and the frame-time update;
- the **backpack scene**: a lighting scheme cycled modulo 5 in both
  directions, a fixed table of light colours per scheme, the flashlight flag,
  and the light values `render` uploads;
- the **box scene**: the texture blend weight nudged by the frame time and
  clamped to [0, 1], and the per-box rotation angle;
- the **mesh** sampler naming: texture i on unit i, named
  `material.texture_diffuseN` / `material.texture_specularN` with
  independent 1-based counters;
- the **legacy texture** loader's channel-count to pixel-format switch.

Every float is a Dafny `real`; no rounding is modelled. Objects whose fields
the program updates in place (`Camera`, the driver's globals, `BoxScene`,
`BackpackScene`, `Mesh`) are classes. Their methods follow the source
statement by statement. Each method's `ensures` ties the new state to a pure
function of the old state, and the lemmas are proved about those functions.

Modules: `Vectors` (glm::vec3 over the reals), `Glfw` and `Gl` (key codes and
GL enum values), `Options`, `Remainders` (remainder facts for the C++ `%`), `Scenes` (projection arguments shared by the
scenes), `CameraModel`, `Driver`, `BoxScene`, `BackpackScene`, `Mesh`,
`TextureLegacy`.

The camera sources mix two revisions. `camera.cpp` has PascalCase fields,
`Zoom`/`ZOOM`, and `ProcessKeyboard(direction, deltaTime)` that moves the
position at once. `camera.h` declares `fov`/`FOV`, a one-argument
`processKeyboard`, pending-move flags and `updatePosition`. The model follows
the `camera.cpp` bodies and calls the zoom field `zoom`. The scenes read it as
`camera->fov`. The four `move*` flags are fields that start false and that
nothing else touches.

Forward/backward moves along
the normalised ground projection of `front`, so the height never changes.
The full-`front` lines are commented out at camera.cpp:52 and :57.
`ProcessKeyboard` moves the camera at once. `main.cpp` instead calls the
header's `processKeyboard(dir)` and then `updatePosition(deltaTime)`, whose
bodies are not part of this model. The driver records the directions it
hands to `processKeyboard`.

`BackpackScene` is not reachable from `main`: `main` builds only the box and
light scenes and forwards only page up/down. Its `handleKey` is modelled on
its own.

Trigonometry and square roots are left abstract. A camera carries a
`Numerics` value fixed at construction. Its `basis` field is what
`updateCameraVectors` computes from yaw, pitch and world-up. Its `invLength`
field is the reciprocal length `glm::normalize` divides by, so a normalised
vector is a scalar multiple of its argument. Time, key states, cursor
positions and the framebuffer size are inputs.

## Model

| member | source | states |
|---|---|---|
| `CameraModel.DefaultsWithinClamps` | RenderingProject/RenderingProject/camera.h:19-23 | The defaults are yaw -90, pitch 0, speed 2.5, sensitivity 0.05, zoom 45. The default pitch and zoom already lie inside the input clamps. |
| `CameraModel.ScrolledZoom` | RenderingProject/RenderingProject/camera.cpp:93-100 | The zoom after a scroll is in [1, 45] for every input. It is exactly `zoom - yoffset` when that lies in range, and the nearer bound otherwise. |
| `CameraModel.TurnedPitch` | RenderingProject/RenderingProject/camera.cpp:77-86 | With the clamp on, the pitch ends in [-89, 89], and it equals the unclamped sum when that is in range. With the clamp off, it is exactly the old pitch plus the scaled offset. |
| `CameraModel.KeyboardMove` | RenderingProject/RenderingProject/camera.cpp:47-68 | Left/right subtract/add `right * velocity`. Forward/backward add/subtract the normalised ground projection of `front` times velocity, so the height is unchanged. |
| `CameraModel.OppositeStepsCancel` | RenderingProject/RenderingProject/camera.cpp:50-67 | With the same velocity and an unchanged basis, forward then backward returns to the start position, and so does left then right. |
| `CameraModel.GroundStepsKeepHeight` | RenderingProject/RenderingProject/camera.cpp:50-59 | Any sequence of forward/backward steps leaves the height unchanged. |
| `CameraModel.Camera.constructor` | RenderingProject/RenderingProject/camera.cpp:7-18 | Stores position, world-up, yaw and pitch as given (defaults: origin, +y, -90, 0). Sets speed, sensitivity and zoom to the defaults and the basis to the derived one. All four pending-move flags start false. |
| `CameraModel.Camera.FromScalars` | RenderingProject/RenderingProject/camera.cpp:21-32 | The same as the vector constructor, with position and world-up built from scalars. |
| `CameraModel.Camera.ProcessKeyboard` | RenderingProject/RenderingProject/camera.cpp:47-68 | Changes only the position, to `KeyboardMove` with velocity `movementSpeed * deltaTime`. Yaw, pitch and zoom are untouched. |
| `CameraModel.Camera.ProcessMouseMovement` | RenderingProject/RenderingProject/camera.cpp:71-90 | Yaw gains `xoffset * sensitivity` with no clamp. Pitch becomes `TurnedPitch` of the scaled offset (the clamp is on by default). The basis is re-derived. Nothing else changes. |
| `CameraModel.Camera.ProcessMouseScroll` | RenderingProject/RenderingProject/camera.cpp:93-100 | Changes only the zoom, to `ScrolledZoom`, which is in [1, 45]. |
| `CameraModel.Camera.UpdateCameraVectors` | RenderingProject/RenderingProject/camera.cpp:103-114 | Front, right and up become the basis the abstract numerics derive from yaw, pitch and world-up. Nothing else changes. |
| `Driver.PrevSceneKey` | RenderingProject/RenderingProject/main.cpp:94-109 | The index moves only on a press edge. From an in-range index it becomes `(i + n - 1) % n`, so 0 wraps to n-1. The flag afterwards equals the key state, so a release re-arms. |
| `Driver.NextSceneKey` | RenderingProject/RenderingProject/main.cpp:112-123 | The index moves only on a press edge, and then lands in [0, n) from any start. From an in-range index it wraps n-1 to 0. A release re-arms. |
| `Driver.WireframeKey` | RenderingProject/RenderingProject/main.cpp:150-161 | The wireframe mode flips exactly when the key is pressed and was not already pressed. The flag afterwards equals the key state. |
| `Driver.CameraMoves` | RenderingProject/RenderingProject/main.cpp:126-147 | Each held W/A/S/D key contributes its direction exactly once and no other key contributes, so the length is the number of held keys. They come in W, A, S, D order. |
| `Driver.ForwardedKeys` | RenderingProject/RenderingProject/main.cpp:164-173 | Only page up and page down are forwarded, each once per frame it is held, with no edge detection. They go to the given scene with `deltaTime`, page up first. |
| `Driver.InputStep` | RenderingProject/RenderingProject/main.cpp:85-174 | One call of processInput. The scene index stays in [0, n). ESC asks the window to close. Camera moves and scene keys are those of the helpers, and the scene keys go to the updated scene. |
| `Driver.HeldPrevKeyIsInert` | RenderingProject/RenderingProject/main.cpp:96-104 | Once its edge is taken, holding the left arrow over any number of frames leaves the index unchanged. |
| `Driver.PrevEdgeFrame` | RenderingProject/RenderingProject/main.cpp:94-104 | The frame that takes the left arrow's edge gives `(i + n - 1) % n` and arms the edge. |
| `Driver.HeldPrevKeyStepsOnce` | RenderingProject/RenderingProject/main.cpp:94-109 | Holding the left arrow over one or more frames from an armed state steps back exactly one scene. |
| `Driver.HeldNextKeyIsInert` | RenderingProject/RenderingProject/main.cpp:114-118 | Once its edge is taken, holding the right arrow leaves the index unchanged. |
| `Driver.NextEdgeFrame` | RenderingProject/RenderingProject/main.cpp:112-118 | The frame that takes the right arrow's edge gives `(i + 1) % n` and arms the edge. |
| `Driver.PrevWrapIsModular` | RenderingProject/RenderingProject/main.cpp:98-102 | From an in-range index, stepping back with the wrap to n-1 equals `(i + n - 1) % n`. |
| `Driver.NextWrapIsModular` | RenderingProject/RenderingProject/main.cpp:116 | From an in-range index, the size_t remainder `(i + 1) % n` is `i + 1`, except that the last index wraps to 0. |
| `Driver.HeldNextKeyStepsOnce` | RenderingProject/RenderingProject/main.cpp:112-123 | Holding the right arrow over one or more frames from an armed state gives `(i + 1) % n`. |
| `Driver.HeldWireframeKeyIsInert` | RenderingProject/RenderingProject/main.cpp:152-156 | Once its edge is taken, holding M leaves the wireframe mode unchanged. |
| `Driver.HeldWireframeKeyTogglesOnce` | RenderingProject/RenderingProject/main.cpp:150-161 | Holding M over one or more frames from an armed state flips the mode exactly once. |
| `Driver.TwoWireframePressesRestore` | RenderingProject/RenderingProject/main.cpp:150-161 | Press, release, press, release of M restores the mode and leaves the key re-armed. |
| `Driver.MouseMove` | RenderingProject/RenderingProject/main.cpp:55-66 | The first event gives zero offsets. Later events give `x - lastX` and `lastY - y`. Afterwards the latch holds the current position and is no longer first. |
| `Driver.XOffsetsTelescope` | RenderingProject/RenderingProject/main.cpp:55-66 | Once a position is latched, the horizontal offsets of a run of cursor events sum to the pointer's total travel. |
| `Driver.ScrollToZoomOffset` | RenderingProject/RenderingProject/main.cpp:75 | The camera receives a tenth of the wheel offset. |
| `Driver.Driver.constructor` | RenderingProject/RenderingProject/main.cpp:29-42 | The globals' initial values: scene 0, solid mode, first-mouse latch set at (400, 300), zero times, all edge flags clear. |
| `Driver.Driver.BeginFrame` | RenderingProject/RenderingProject/main.cpp:232-234 | `deltaTime` is the current time minus the previous frame's time, which then becomes the current time. |
| `Driver.Driver.ProcessInput` | RenderingProject/RenderingProject/main.cpp:85-174 | Keeps the scene index in range. The new globals and the returned calls are exactly `InputStep` of the old globals. |
| `Driver.Driver.PrevSceneArrow` | RenderingProject/RenderingProject/main.cpp:94-109 | The left-arrow block changes the globals as `PrevSceneKey`. |
| `Driver.Driver.NextSceneArrow` | RenderingProject/RenderingProject/main.cpp:112-123 | The right-arrow block changes the globals as `NextSceneKey`. |
| `Driver.Driver.MovementKeys` | RenderingProject/RenderingProject/main.cpp:125-147 | The W/A/S/D blocks produce `CameraMoves`, in order. |
| `Driver.Driver.WireframeToggleKey` | RenderingProject/RenderingProject/main.cpp:149-161 | The M block changes the globals as `WireframeKey`. |
| `Driver.Driver.PageKeys` | RenderingProject/RenderingProject/main.cpp:163-173 | The page-key blocks produce `ForwardedKeys` for the current scene. |
| `Driver.Driver.MouseCallback` | RenderingProject/RenderingProject/main.cpp:53-69 | The latch advances as `MouseMove`. The camera then turns by the offsets with the pitch clamp on. |
| `Driver.Driver.ScrollCallback` | RenderingProject/RenderingProject/main.cpp:73-76 | The camera zoom becomes `ScrolledZoom` of a tenth of the wheel offset. |
| `Scenes.ProjectionFor` | RenderingProject/RenderingProject/scenes/box_scene.cpp:63-66 | The projection uses the camera zoom as field of view, the framebuffer size and the clip planes 0.1 and 100. |
| `BoxScene.MixAfterKey` | RenderingProject/RenderingProject/scenes/box_scene.cpp:95-118 | Page up gives `min(mix + dt, 1)`, page down `max(mix - dt, 0)`, and any other key leaves the weight unchanged. From [0, 1] with `dt >= 0` it stays in [0, 1]. |
| `BoxScene.PageDownUndoesPageUp` | RenderingProject/RenderingProject/scenes/box_scene.cpp:98-117 | Away from the clamps, page down undoes page up for the same frame time. |
| `BoxScene.HeldKeysKeepMixInRange` | RenderingProject/RenderingProject/scenes/box_scene.cpp:95-118 | Holding a key over any number of frames with non-negative frame times keeps the weight in [0, 1]. |
| `BoxScene.BoxAngle` | RenderingProject/RenderingProject/scenes/box_scene.cpp:80-85 | Box i's angle is `20 * i` degrees, plus `50 * t` when `i % 3 == 0`. |
| `BoxScene.BoxSpinsIffThird` | RenderingProject/RenderingProject/scenes/box_scene.cpp:80-85 | A box's angle changes with time exactly when its index is a multiple of 3. |
| `BoxScene.BoxScene.constructor` | RenderingProject/RenderingProject/scenes/box_scene.cpp:7-10 | Stores the camera. The box positions and the initial blend weight come from box_scene.h, which is not part of this model, so they are parameters. |
| `BoxScene.BoxScene.HandleKey` | RenderingProject/RenderingProject/scenes/box_scene.cpp:95-118 | Changes only the blend weight, to `MixAfterKey`. |
| `BoxScene.BoxScene.Render` | RenderingProject/RenderingProject/scenes/box_scene.cpp:52-92 | Uploads `mixWeight = textureMix` and the projection from the camera zoom. Box i comes at its position with `BoxAngle(i, clock[i])`, using the clock reading taken inside the loop for that box. Nothing is modified. |
| `BackpackScene.CRem` | RenderingProject/RenderingProject/scenes/backpack_scene.cpp:166 | C++ `%` on int. For a non-negative dividend it is the ordinary remainder, in [0, abs(b)). For a negative dividend it lies in (-abs(b), 0]. The dividend minus the result is always a multiple of the divisor. |
| `BackpackScene.SchemeRow` | RenderingProject/RenderingProject/scenes/backpack_scene.cpp:201-291 | The colour table has a row exactly for schemes 0 to 4, each with four point colours and four speculars. |
| `BackpackScene.InitialState` | RenderingProject/RenderingProject/scenes/backpack_scene.h:88-129 | The initial state is scheme 0 of 5 with the flashlight on. Inner cut-off 12.5 is below outer 17.5. There are four positions, colours and speculars, and the initial colours are the scheme-0 row. |
| `BackpackScene.AdjustedLights` | RenderingProject/RenderingProject/scenes/backpack_scene.cpp:201-291 | For a scheme with a row, the colour fields become that row. For any other index nothing changes. The flashlight, spot values, cut-offs, positions and directional direction are never changed. |
| `BackpackScene.NextScheme` | RenderingProject/RenderingProject/scenes/backpack_scene.cpp:166 | From an in-range scheme, up stays in range and wraps the last scheme to 0. |
| `BackpackScene.PrevScheme` | RenderingProject/RenderingProject/scenes/backpack_scene.cpp:173-177 | From an in-range scheme, down stays in range and wraps 0 to the last scheme. |
| `BackpackScene.KeyTransition` | RenderingProject/RenderingProject/scenes/backpack_scene.cpp:161-198 | Up/down set the next/previous scheme and then apply the table. F flips the flashlight only. Page up, page down and every other key change nothing. The scheme stays in range. |
| `BackpackScene.HandleKeyKeepsConsistent` | RenderingProject/RenderingProject/scenes/backpack_scene.cpp:161-198 | Every key keeps the colours equal to the current scheme's table row. |
| `BackpackScene.FlashlightTogglesBack` | RenderingProject/RenderingProject/scenes/backpack_scene.cpp:182-185 | F touches no colour field, and two F presses are the identity. |
| `BackpackScene.UpPresses` | RenderingProject/RenderingProject/scenes/backpack_scene.cpp:164-168 | n presses of up advance the scheme by n modulo 5, change only scheme and colour fields, and keep the colours on the table. |
| `BackpackScene.FiveUpsRestore` | RenderingProject/RenderingProject/scenes/backpack_scene.h:126-129 | Five presses of up from a consistent state, the initial one included, restore every field. |
| `BackpackScene.UpDownInverse` | RenderingProject/RenderingProject/scenes/backpack_scene.cpp:164-179 | From a consistent state, down undoes up and up undoes down. |
| `BackpackScene.Uploads` | RenderingProject/RenderingProject/scenes/backpack_scene.cpp:73-112 | Each light uploads 0.1 times its colour as ambient, its colour as diffuse, and its specular. With the flashlight off the spot's three values are zero. Each light-source cube uses its point light's colour. |
| `BackpackScene.FlashlightOnlyGatesSpot` | RenderingProject/RenderingProject/scenes/backpack_scene.cpp:96-107 | The flashlight flag changes only the spot's ambient/diffuse/specular. Point, directional and all other uploads are independent of it. |
| `BackpackScene.LightCubeMatchesDrawCount` | RenderingProject/RenderingProject/scenes/backpack_scene.h:15-58 | The cube data has 108 floats: 36 three-component vertices, the count each light-source draw uses. |
| `BackpackScene.BackpackScene.constructor` | RenderingProject/RenderingProject/scenes/backpack_scene.h:88-129 | The scene starts in `InitialState`, with three fresh four-element light arrays. |
| `BackpackScene.BackpackScene.HandleKey` | RenderingProject/RenderingProject/scenes/backpack_scene.cpp:161-198 | The new state is `KeyTransition` of the old, and scheme and arrays stay valid. |
| `BackpackScene.BackpackScene.AdjustLights` | RenderingProject/RenderingProject/scenes/backpack_scene.cpp:201-291 | The colour fields and light arrays are overwritten in place as `AdjustedLights`. |
| `BackpackScene.BackpackScene.Render` | RenderingProject/RenderingProject/scenes/backpack_scene.cpp:51-158 | The uploads are `Uploads` of the current state, built by the loops over the point lights. The projection comes from the camera zoom. Nothing is modified. |
| `BackpackScene.BackpackScene.PointUniformAt` | RenderingProject/RenderingProject/scenes/backpack_scene.cpp:85-87 | Point light i uploads 0.1 times its colour, its colour and its specular. |
| `Mesh.NatToStringInjective` | RenderingProject/RenderingProject/mesh.cpp:30 | Different counter values have different decimal renderings. |
| `Mesh.CountBeforeGrows` | RenderingProject/RenderingProject/mesh.cpp:28-35 | Between two textures of one kind, the per-kind counter grows by at least one. |
| `Mesh.SamplerName` | RenderingProject/RenderingProject/mesh.cpp:26-37 | The k-th diffuse texture is `material.texture_diffuse` + k and the k-th specular `material.texture_specular` + k, each counted in its own kind. Any other kind gets `material.` + kind with no suffix. |
| `Mesh.SamplerNamesDistinct` | RenderingProject/RenderingProject/mesh.cpp:18-37 | When every texture is diffuse or specular, all sampler names are pairwise distinct. |
| `Mesh.Mesh.constructor` | RenderingProject/RenderingProject/mesh.cpp:6-12 | Vertices, indices and textures are stored unchanged. |
| `Mesh.Mesh.Draw` | RenderingProject/RenderingProject/mesh.cpp:16-44 | Exactly one assignment per texture, in order: texture i on unit i, sampler value i, its `SamplerName`, and its own GL name bound. The counters are those of the loop. The draw requests `indices.size()` elements. |
| `TextureLegacy.SelectFormat` | RenderingProject/RenderingProject/texture_legacy.cpp:28-40 | 1 channel selects GL_RED, 3 GL_RGB and 4 GL_RGBA. Each holds in both directions, and every other count selects nothing. |
| `TextureLegacy.ConstructAsWritten` | RenderingProject/RenderingProject/texture_legacy.cpp:6-52 | Wrap S and T both use `wrapMode`. The upload happens exactly when decoding returned data, with the same possibly-unassigned format for both format arguments. Otherwise only the error is reported. |
| `TextureLegacy.AsWrittenUploadsUnassignedFormat` | RenderingProject/RenderingProject/texture_legacy.cpp:28-42 | A two-channel image reaches `glTexImage2D` with no format assigned. |
| `TextureLegacy.Construct` | RenderingProject/RenderingProject/texture_legacy.cpp:6-52 | Corrected constructor: an upload, with mipmaps, happens exactly when data was decoded and its channel count has a format. Otherwise the error is reported. |
| `TextureLegacy.UploadsUseAssignedFormat` | RenderingProject/RenderingProject/texture_legacy.cpp:26-48 | Every corrected upload uses one assigned format (red, RGB or RGBA) for both arguments, along with the image's size. It agrees with the code as written wherever that code is defined. |

## Left out

- `updateCameraVectors`' trigonometry, cross products and normalisation, and the square root in `glm::normalize`: float numerics. They come in as the camera's `Numerics` parameter, and the model only calls them.
- `GetViewMatrix`, `perspective`, the normal matrices, model matrices and the view-space transforms of light positions and directions: matrix work over floats. Projections are recorded by their arguments only.
- `Camera::updatePosition` and the one-argument `processKeyboard`: main.cpp calls both, and camera.h declares them, but their bodies are not part of this model. The driver records the directions it hands to `processKeyboard`. The `move*` flags are state only.
- The uploaded cut-offs are `cos(radians(...))` of the stored angles. The model records the angles in degrees.
- All GL, GLFW, stb_image and assimp calls: buffer and VAO setup, texture binding, draw calls, `glPolygonMode` from the wireframe flag, `glViewport`, window creation and the render loop in `main`. Key states, time, cursor positions and the framebuffer size are inputs.
- shader.cpp, texture.cpp, model.h and the light scene (light_scene.cpp, light_scene.h): GL wrappers, declarations and trig animation with an empty `handleKey`. They are not part of this model.
- box_scene.h is not part of this model: the box positions and the initial blend weight are constructor parameters.
- Float rounding, including the double-to-float narrowing of cursor positions and of `glfwGetTime()`.
- Mesh.Mesh.Draw: the `diffuseNr`/`specularNr` counters are unbounded. The source's 32-bit unsigned counters would wrap only after 2^32 textures of one kind.
- Driver.PrevSceneArrow: `scenes.size() - 1` is stored into a 32-bit `int` without modelling that narrowing. This assumes fewer than 2^31 scenes.
- Driver.Driver.constructor: requires a non-empty scene list. With an empty list, `% scenes.size()` divides by zero and `scenes[currentScene]` is out of bounds in the source.

## Findings

| source | as written | input that shows it | evidently intended | confidence | as-written member | corrected member |
|---|---|---|---|---|---|---|
| RenderingProject/RenderingProject/texture_legacy.cpp:28-42 | `format` is assigned only for 1, 3 or 4 channels. It is then passed to `glTexImage2D` as both internal and external format whatever the count was. | A decoded image with 2 channels (grey and alpha), which the decoder returns for such files when asked for the native channel count | Every upload uses an assigned format. A channel count with no format is reported like a failed load instead of uploaded. | not executed; medium | `TextureLegacy.AsWrittenUploadsUnassignedFormat` | `TextureLegacy.UploadsUseAssignedFormat` |
