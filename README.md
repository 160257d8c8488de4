# pyhazel core, modelled in Dafny

pyhazel is a small 2D game engine in Python, a port of the Hazel engine: a
window delivers events to an `Application`, which routes them through a
`LayerStack`, and an OpenGL renderer draws vertex arrays described by buffer
layouts, with shaders cut out of `#type`-tagged source files. This project
models the parts of it that compute or keep state, and proves what they
promise:

- the `ShaderDataType` table, including the `Enum` aliasing that makes
  `INT`..`INT4` the same members as `FLOAT`..`FLOAT4` (`ShaderDataTypes`);
- `BufferLayout`'s running offset and stride computation, which rewrites each
  `BufferElement` in place (`BufferLayouts`);
- the OpenGL vertex array's attribute plan and base-type mapping, and the
  vertex and index buffer properties it reads (`VertexArrays`);
- `pre_process`, the shader source splitter, over Python's `str.split`,
  `str.strip` and `str.startswith` (`Shaders`, `PyStrings`);
- `ShaderLibrary` (`ShaderLibraries`) and `find_all_substrings` (`Utils`);
- `LayerStack` (`LayerStacks`), events and their dispatch (`Events`) and the
  application's event routing (`Applications`);
- the profiler's session state machine (`Instrumentors`);
- `SubTexture2D` (`SubTextures`), `OrthographicCamera`
  (`OrthographicCameras`), `OrthographicCameraController`
  (`CameraControllers`), `SceneCamera` (`SceneCameras`), `OpenGLFramebuffer`
  (`Framebuffers`) and `Timestep` (`Timesteps`).

Python exceptions the code raises (a failed `assert`, `IndexError`,
`ZeroDivisionError`, `AttributeError`) are values: `Result` for an expression,
`Outcome` for a statement (`Wrappers`). Everything a GL driver, GLFW or the
file system would do is recorded in a call log, and the values they would
return (handles, clock readings) are parameters. glm matrices are symbolic
terms (`Matrices`): two matrices are equal when they were built the same
way. Floats are reals.

Objects whose fields the source updates are classes with `modifies` clauses;
pure code is functions. Loops in the source are `while` loops with
invariants, each proved against a function that specifies it:
`CalculateOffsetsAndStride` against `SizeBefore` and `LastPosition`,
`AddVertexBuffer` against `AttributePlan`, `PreProcess` against `Run`,
`FindAllSubstrings` against `Find`, `Destroy` against `DestroyCalls`, and the
layer loop of `on_event` against `Offered`.

Where the source does something other than what it evidently means, the
model follows the code, and "## Findings" gives the intended version beside
it.

## Model

| member | source | states |
|---|---|---|
| ShaderDataTypes.Lookup | src/pyhazel/renderer/shader_data_type.py:8-20 | the member a declared name resolves to has the value written beside that name |
| ShaderDataTypes.LookupIsFirst | src/pyhazel/renderer/shader_data_type.py:8-20 | a name resolves to the first declared name carrying its value |
| ShaderDataTypes.IntAliasesFloat | src/pyhazel/renderer/shader_data_type.py:10-19 | each `INT*` name resolves to the name declared six places earlier |
| ShaderDataTypes.IntsAliasFloats | src/pyhazel/renderer/shader_data_type.py:10-19 | `INT`, `INT2`, `INT3`, `INT4` are the members `FLOAT`, `FLOAT2`, `FLOAT3`, `FLOAT4` |
| ShaderDataTypes.OthersAreMembers | src/pyhazel/renderer/shader_data_type.py:9-20 | every name other than `INT*` is a member in its own right |
| ShaderDataTypes.MembersAreFixpoints | src/pyhazel/renderer/shader_data_type.py:8-20 | the members are exactly the names lookup leaves alone, and every name resolves to a member |
| ShaderDataTypes.MemberIsLookup | src/pyhazel/renderer/shader_data_type.py:8-20 | the alias table agrees with the `Enum` rule for every name |
| ShaderDataTypes.Count | src/pyhazel/renderer/shader_data_type.py:10-24 | every member but `NONE` has count 1..4; `MAT3` has 3 and `MAT4` has 4 |
| ShaderDataTypes.Size | src/pyhazel/renderer/shader_data_type.py:10-24 | every member but `NONE` has a positive size |
| ShaderDataTypes.SizeFollowsCount | src/pyhazel/renderer/shader_data_type.py:10-20 | the float vectors take 4 bytes per component, `MAT3` is 36 bytes, `MAT4` 64, `BOOL` 1 byte with count 1 |
| BufferLayouts.BufferElement.constructor | src/pyhazel/renderer/buffer_element.py:7-12 | a record with the given type and name, offset 0 and not normalized by default |
| BufferLayouts.LastPosition | src/pyhazel/renderer/buffer_layout.py:19-22 | an element passed more than once keeps the offset written at its last position |
| BufferLayouts.WriteOffsetStep | src/pyhazel/renderer/buffer_layout.py:19-22 | one iteration of the offset loop keeps every processed element's offset correct |
| BufferLayouts.BufferLayout.constructor | src/pyhazel/renderer/buffer_layout.py:13-16 | the layout keeps the elements in order (so iteration yields exactly them), its stride is the sum of all sizes, and every offset is written |
| BufferLayouts.BufferLayout.CalculateOffsetsAndStride | src/pyhazel/renderer/buffer_layout.py:18-23 | each element's offset becomes the sum of the sizes before it (its last position when repeated), and the stride grows by the sum of all sizes |
| BufferLayouts.DistinctOffsets | src/pyhazel/renderer/buffer_layout.py:19-22 | with no element repeated, element i's offset is the sum of the sizes of elements 0..i-1 |
| BufferLayouts.OffsetsIncrease | src/pyhazel/renderer/buffer_layout.py:20-22 | the sizes before each position grow strictly; with no element repeated these are the offsets |
| BufferLayouts.ElementWithinStride | src/pyhazel/renderer/buffer_layout.py:15-23 | every element ends within the stride, and the last one ends exactly at it |
| BufferLayouts.StrideSign | src/pyhazel/renderer/buffer_layout.py:15-23 | the stride is 0 exactly for an empty layout |
| VertexArrays.ShaderDataTypeToOpenGLBaseType | src/pyhazel/platform/opengl/opengl_vertex_array.py:16-40 | the float vectors and matrices map to `GL_FLOAT`, `BOOL` to `GL_BOOL`, `NONE` fails the assertion, and no member maps to `GL_INT` |
| VertexArrays.BaseType | src/pyhazel/platform/opengl/opengl_vertex_array.py:69 | the mapping never fails on a type that can stand in a layout |
| VertexArrays.AttributePlanShape | src/pyhazel/platform/opengl/opengl_vertex_array.py:64-73 | attribute i is enabled and then pointed at element i, with the type's count, its base type, the normalized flag as `GL_TRUE`/`GL_FALSE`, the layout's stride and the element's offset |
| VertexArrays.AttributePlanLength | src/pyhazel/platform/opengl/opengl_vertex_array.py:64-73 | two calls per element |
| VertexArrays.LayoutAttribute | src/pyhazel/platform/opengl/opengl_vertex_array.py:64-73 | over a freshly built layout, attribute i starts at the sizes before element i with the total size as stride, and a matrix element takes one attribute of 3 or 4 components |
| VertexArrays.IndexBuffer.constructor | src/pyhazel/platform/opengl/opengl_index_buffer.py:16-19 | keeps the generated handle and the index count |
| VertexArrays.VertexBuffer.constructor | src/pyhazel/platform/opengl/opengl_vertex_buffer.py:17-19 | a new buffer has no `layout` attribute yet |
| VertexArrays.VertexBuffer.BufferLayout | src/pyhazel/platform/opengl/opengl_vertex_buffer.py:31-33 | the getter raises `AttributeError` exactly until the setter has run, and then returns what was set |
| VertexArrays.VertexBuffer.SetBufferLayout | src/pyhazel/platform/opengl/opengl_vertex_buffer.py:35-37 | after the setter the getter returns exactly the value set |
| VertexArrays.OpenGLVertexArray.constructor | src/pyhazel/platform/opengl/opengl_vertex_array.py:44-49 | no index buffer, no vertex buffers, and the new array bound |
| VertexArrays.OpenGLVertexArray.AddVertexBuffer | src/pyhazel/platform/opengl/opengl_vertex_array.py:57-75 | a missing layout raises `AttributeError` and an empty one fails the assertion, both changing nothing; a bound, non-empty layout always succeeds: the array and buffer are bound, the attribute plan numbered from 0 is issued, and the buffer is appended with earlier entries unchanged |
| VertexArrays.OpenGLVertexArray.SetIndexBuffer | src/pyhazel/platform/opengl/opengl_vertex_array.py:85-89 | binds the array, then binds and stores exactly the given buffer; `None` raises after the first bind |
| PyStrings.Split | src/pyhazel/platform/opengl/opengl_shader.py:81 | `split` yields at least one part and no part holds the separator |
| PyStrings.SplitJoins | src/pyhazel/platform/opengl/opengl_shader.py:81 | rejoining the parts with the separator gives the string back |
| PyStrings.SplitUnique | src/pyhazel/platform/opengl/opengl_shader.py:81 | any separator-free parts that rejoin to the string are its split |
| PyStrings.LeadingSpaces | src/pyhazel/platform/opengl/opengl_shader.py:81 | the leading run of whitespace, ending at a non-space or the end |
| PyStrings.TrimmedEnd | src/pyhazel/platform/opengl/opengl_shader.py:81 | the length before the trailing run of whitespace |
| PyStrings.StripBounds | src/pyhazel/platform/opengl/opengl_shader.py:81 | `strip` removes whitespace only, from the two ends, leaves no whitespace at either end, and empties an all-whitespace string |
| PyStrings.StripIdempotent | src/pyhazel/platform/opengl/opengl_shader.py:81 | stripping twice is stripping once |
| Shaders.ShaderTypeFromString | src/pyhazel/platform/opengl/opengl_shader.py:18-24 | "vertex" is the vertex stage, "fragment" and "pixel" the fragment stage, any other word fails the assertion |
| Shaders.SplitSingle | src/pyhazel/platform/opengl/opengl_shader.py:86 | a line splits into a single token exactly when it holds no space |
| Shaders.HeaderStageErrors | src/pyhazel/platform/opengl/opengl_shader.py:86 | a header raises `IndexError` exactly when it has no space, and otherwise names the stage of its second space-separated token |
| Shaders.SingleSpacedHeader | src/pyhazel/platform/opengl/opengl_shader.py:86 | `#type vertex` names the vertex stage |
| Shaders.DoubleSpacedHeader | src/pyhazel/platform/opengl/opengl_shader.py:86 | `#type  vertex` (two spaces) fails the assertion, because its second token is empty |
| Shaders.Step | src/pyhazel/platform/opengl/opengl_shader.py:82-92 | one line keeps the current stage's entry present, and fails only on a header naming no known stage |
| Shaders.Run | src/pyhazel/platform/opengl/opengl_shader.py:81-92 | a successful run keeps the current stage's entry present |
| Shaders.ParseLine | src/pyhazel/platform/opengl/opengl_shader.py:82-92 | the loop body on `is_parsing`, `shader_type` and the dict does what one step of the specified run does |
| Shaders.PreProcess | src/pyhazel/platform/opengl/opengl_shader.py:77-94 | the loop returns exactly the specified run over the stripped lines, or the exception the first bad header raises |
| Shaders.RunConcat | src/pyhazel/platform/opengl/opengl_shader.py:81-92 | running two pieces of text one after the other is running their concatenation |
| Shaders.RunStopsAtError | src/pyhazel/platform/opengl/opengl_shader.py:86 | an exception ends the parse whatever follows |
| Shaders.PreambleIgnored | src/pyhazel/platform/opengl/opengl_shader.py:79-92 | lines before the first header are discarded and cannot fail |
| Shaders.PreambleDiscarded | src/pyhazel/platform/opengl/opengl_shader.py:79-92 | the result does not depend on anything before the first header |
| Shaders.SectionAfterHeader | src/pyhazel/platform/opengl/opengl_shader.py:85-92 | after a header, its stage holds exactly its following non-empty lines each followed by a newline, in order; a repeated header resets it, an empty section is "", and other stages keep their text |
| Shaders.AppendLine | src/pyhazel/platform/opengl/opengl_shader.py:92 | appending a clean line and a newline keeps a section well formed |
| Shaders.LinesAreClean | src/pyhazel/platform/opengl/opengl_shader.py:81 | the stripped lines hold no newline and have no whitespace at either end |
| Shaders.StrippedLineClean | src/pyhazel/platform/opengl/opengl_shader.py:81 | one stripped piece holds no newline and has no whitespace at either end |
| Shaders.StepWellFormed | src/pyhazel/platform/opengl/opengl_shader.py:82-92 | one step over a clean line keeps every section well formed |
| Shaders.RunWellFormed | src/pyhazel/platform/opengl/opengl_shader.py:81-92 | a run over clean lines keeps every section well formed |
| Shaders.HeaderStagesSnoc | src/pyhazel/platform/opengl/opengl_shader.py:85-88 | the stages a text's headers name grow by the last line's stage, if it is a header |
| Shaders.RunKeys | src/pyhazel/platform/opengl/opengl_shader.py:85-88 | a successful run adds exactly the stages its headers name |
| Shaders.PreProcessKeys | src/pyhazel/platform/opengl/opengl_shader.py:77-94 | the result's keys are exactly the stages the headers name, and every section is empty or newline-terminated with no empty or whitespace-padded line |
| Shaders.OpenGLShader.constructor | src/pyhazel/platform/opengl/opengl_shader.py:28-31 | no program (-1) and an empty name |
| Shaders.OpenGLShader.CreateFromSource | src/pyhazel/platform/opengl/opengl_shader.py:54-63 | a new shader with the given name, compiled from exactly the vertex and fragment sources given |
| ShaderLibraries.AddThenLookup | src/pyhazel/renderer/shader_library.py:12-16 | `add` refuses exactly a name already present; otherwise the key exists, maps to the shader, and no other entry changes or disappears |
| ShaderLibraries.NoneNameOverwrites | src/pyhazel/renderer/shader_library.py:13-15 | `add(None, s)` silently replaces a shader already stored under `s.name`, while the same name given explicitly is refused |
| ShaderLibraries.ShaderLibrary.constructor | src/pyhazel/renderer/shader_library.py:9-10 | an empty library |
| ShaderLibraries.ShaderLibrary.Exists | src/pyhazel/renderer/shader_library.py:27-28 | pure membership, with `None` never a key |
| ShaderLibraries.ShaderLibrary.Add | src/pyhazel/renderer/shader_library.py:12-16 | a duplicate fails the assertion and changes nothing; otherwise the dict becomes what `AddResult` gives |
| ShaderLibraries.ShaderLibrary.Get | src/pyhazel/renderer/shader_library.py:23-25 | the registered shader, or the "Shader not found!" assertion exactly for a missing name |
| Utils.Find | src/pyhazel/utils.py:9 | `find` returns the lowest occurrence at or after `start`, or -1 exactly when none remains |
| Utils.FindAllSubstrings | src/pyhazel/utils.py:6-13 | every position is an occurrence, each starts at or after the end of the previous one, none is skipped between, and none remains after the last |
| Utils.EveryOccurrenceCovered | src/pyhazel/utils.py:6-13 | every occurrence in the source overlaps one of the positions yielded |
| Utils.CoveredBeforeResume | src/pyhazel/utils.py:6-13 | an occurrence before the point where the search resumes overlaps a yielded position |
| LayerStacks.Layer.constructor | src/pyhazel/layer.py:5-6 | a layer named "Layer" by default |
| LayerStacks.Insert | src/pyhazel/layer_stack.py:16 | `list.insert`: in range it puts the item at the index, a negative index counts from the end, and an index past either end is clamped |
| LayerStacks.RemoveAt | src/pyhazel/layer_stack.py:32 | `del`: the items after the index move down by one |
| LayerStacks.IndexOf | src/pyhazel/layer_stack.py:26 | `list.index`: the first occurrence, or none |
| LayerStacks.Reverse | src/pyhazel/layer_stack.py:13 | `[::-1]`: item k is the item k places from the end |
| LayerStacks.ReverseReverse | src/pyhazel/layer_stack.py:13 | reversing twice gives the list back |
| LayerStacks.DestroyCallsShape | src/pyhazel/layer_stack.py:47-50 | `destroy` detaches and then destroys each item, in list order |
| LayerStacks.DestroyCallsLength | src/pyhazel/layer_stack.py:47-50 | two calls per item |
| LayerStacks.PushLayerInFront | src/pyhazel/layer_stack.py:15-17 | a pushed layer goes last among the layers, before every overlay, and the index stays within bounds |
| LayerStacks.PushOverlayKeepsLayers | src/pyhazel/layer_stack.py:20-21 | an overlay push keeps the layers and the index within bounds |
| LayerStacks.PopOverlayKeepsBounds | src/pyhazel/layer_stack.py:36-45 | a removal `pop_overlay` accepts keeps the index within bounds |
| LayerStacks.PopLayerBounds | src/pyhazel/layer_stack.py:24-34 | a removal `pop_layer` accepts breaks the index bound exactly when it takes position 0 with the index at 0, leaving the index at -1 |
| LayerStacks.PopLayerCorrectedKeepsBounds | src/pyhazel/layer_stack.py:24-34 | with the intended guard, a removal keeps the index within bounds and the overlays unchanged |
| LayerStacks.LayerStack.constructor | src/pyhazel/layer_stack.py:5-7 | an empty stack with index 0 |
| LayerStacks.LayerStack.Reversed | src/pyhazel/layer_stack.py:12-13 | the items from last to first |
| LayerStacks.LayerStack.PushLayer | src/pyhazel/layer_stack.py:15-18 | insert at the index, move the index on, and attach the layer exactly once |
| LayerStacks.LayerStack.PushOverlay | src/pyhazel/layer_stack.py:20-22 | append, keep the index, and attach the overlay exactly once |
| LayerStacks.LayerStack.PopLayer | src/pyhazel/layer_stack.py:24-34 | remove the first occurrence only when present at or before the index, then lower the index and detach; otherwise nothing changes |
| LayerStacks.LayerStack.PopLayerCorrected | src/pyhazel/layer_stack.py:24-34 | the intended guard: remove only an item before the index, which keeps the index within bounds |
| LayerStacks.LayerStack.PopOverlay | src/pyhazel/layer_stack.py:36-45 | remove the first occurrence only when present at or after the index, keep the index, detach; otherwise nothing changes |
| LayerStacks.LayerStack.Destroy | src/pyhazel/layer_stack.py:47-50 | detach and destroy every item in order, leaving the list as it was |
| LayerStacks.PopSoleOverlayAsLayer | src/pyhazel/layer_stack.py:24-34 | popping the only overlay with `pop_layer` empties the stack and sets the index to -1 |
| LayerStacks.PopSoleOverlayCorrected | src/pyhazel/layer_stack.py:24-34 | with the intended guard, the overlay stays and the index stays 0 |
| Events.StaticType | src/pyhazel/events/application_event.py:14-80 | each event class reports its own event type, and none reports `Null` or the focus and move types |
| Events.StaticTypeIdentifiesClass | src/pyhazel/events/event.py:66 | two events report the same type exactly when they are of the same class |
| Events.Event.constructor | src/pyhazel/events/event.py:44-46 | a new event is not handled |
| Events.Event.GetEventType | src/pyhazel/events/event.py:48-49 | the static type of the event's own class |
| Events.EventDispatcher.constructor | src/pyhazel/events/event.py:62-63 | the dispatcher holds the given event |
| Events.EventDispatcher.Dispatch | src/pyhazel/events/event.py:65-69 | true exactly on a type match, and then `handled` becomes the callback's answer even if it was already set; on a mismatch `handled` is left alone |
| Applications.OfferedIsPrefix | src/pyhazel/application.py:69-72 | the layers offered an event are a prefix of the list, and none but the last handled it |
| Applications.OfferedStopsAtFirstHandler | src/pyhazel/application.py:69-72 | the last layer offered handled the event exactly when some layer would have |
| Applications.OfferedAllWhenUnhandled | src/pyhazel/application.py:69-72 | when no layer handles the event, every layer is offered it |
| Applications.OfferedStep | src/pyhazel/application.py:69-72 | one step of offering: layer i next, and the rest only when it did not handle the event |
| Applications.OfferInTurn | src/pyhazel/application.py:69-72 | the loop offers exactly the specified layers and ends with `handled` set by the last of them |
| Applications.Application.constructor | src/pyhazel/application.py:26-28 | running, not minimized, with the given stack |
| Applications.Application.OnWindowClose | src/pyhazel/application.py:82-84 | stops running and marks the event handled |
| Applications.Application.OnWindowResize | src/pyhazel/application.py:86-95 | a zero width or height minimizes without reaching the renderer; otherwise the window is restored and the renderer resized; never handled |
| Applications.Application.OfferToLayers | src/pyhazel/application.py:69-72 | an event already handled reaches no layer; otherwise the specified layers are offered it and `handled` records whether the last did |
| Applications.Application.OnEvent | src/pyhazel/application.py:63-72 | close and resize go to the handlers first; a close reaches no layer; then the layers get the event from last to first until one handles it; `running` and `minimized` change only for close and resize |
| Instrumentors.EventRecord | src/pyhazel/debug/instrumentor.py:68-76 | category "function", phase "X", process 0, the result's name and thread, starting at its start and lasting until its end |
| Instrumentors.EventRecords | src/pyhazel/debug/instrumentor.py:67-80 | one record per result, in order |
| Instrumentors.Instrumentor.constructor | src/pyhazel/debug/instrumentor.py:37-41 | no session, an empty document, nothing written |
| Instrumentors.Instrumentor.WriteHeader | src/pyhazel/debug/instrumentor.py:82-83 | a document with no events |
| Instrumentors.Instrumentor.BeginSession | src/pyhazel/debug/instrumentor.py:49-61 | with a session open nothing changes; otherwise the named session opens at the path with an empty document |
| Instrumentors.Instrumentor.WriteProfile | src/pyhazel/debug/instrumentor.py:67-80 | while a session is open exactly one record is appended; otherwise the result is dropped |
| Instrumentors.Instrumentor.EndSession | src/pyhazel/debug/instrumentor.py:63-93 | with a session open the document is written once to its path, the session closed and the document emptied; otherwise nothing happens |
| Instrumentors.InstrumentorRegistry.constructor | src/pyhazel/debug/instrumentor.py:35 | no instance yet |
| Instrumentors.InstrumentorRegistry.Get | src/pyhazel/debug/instrumentor.py:43-47 | the instance, created fresh on the first call and the same one afterwards |
| Instrumentors.GetIsSingleton | src/pyhazel/debug/instrumentor.py:43-47 | two calls return the same instance |
| Instrumentors.ProfileBeginSession | src/pyhazel/debug/instrumentor.py:130-134 | disabled changes nothing; enabled creates the single instance if needed and begins the named session at the path with an empty document unless one is open, in which case the instance is unchanged |
| Instrumentors.ProfileEndSession | src/pyhazel/debug/instrumentor.py:137-141 | disabled changes nothing; enabled writes an open session's document once to its path and closes it, leaving an idle instance unchanged and a new one idle with nothing written |
| Instrumentors.ProfileScope | src/pyhazel/debug/instrumentor.py:96-124 | disabled changes nothing; enabled appends the interval measured, on thread 0, to an open session's document with everything else kept, leaves an idle instance unchanged and a new one idle |
| Instrumentors.SessionWritesItsEvents | src/pyhazel/debug/instrumentor.py:49-93 | a session begun, fed results and ended writes exactly their records, in order, to its path, and closes |
| SubTextures.Texture2D.constructor | src/pyhazel/platform/opengl/opengl_texture.py:25-26 | a texture of the given size |
| SubTextures.NewSubTexture2D | src/pyhazel/renderer/sub_texture_2d.py:10-17 | the same texture object, with corners bottom-left, bottom-right, top-right, top-left |
| SubTextures.CreateFromCoords | src/pyhazel/renderer/sub_texture_2d.py:19-29 | a zero-width or zero-height texture raises `ZeroDivisionError`; otherwise the sub-texture of the same texture whose four corners span from the cell start to the sprite end over the texture size |
| SubTextures.SpriteSpan | src/pyhazel/renderer/sub_texture_2d.py:20-28 | the corners are `sprite * cell` apart over the texture size, so the default sprite covers exactly one cell |
| SubTextures.CornersOrdered | src/pyhazel/renderer/sub_texture_2d.py:21-28 | with non-negative inputs and a positive texture size, the lower corner is below and left of the upper one |
| OrthographicCameras.OrthographicCamera.constructor | src/pyhazel/renderer/orthographic_camera.py:11-17 | the orthographic projection with depth -1..1, the identity view, at the origin and unrotated, with the cached product right |
| OrthographicCameras.OrthographicCamera.SetPosition | src/pyhazel/renderer/orthographic_camera.py:23-26 | stores the position and recomputes the view, keeping the cache right |
| OrthographicCameras.OrthographicCamera.SetRotation | src/pyhazel/renderer/orthographic_camera.py:32-35 | stores the rotation and recomputes the view, keeping the cache right |
| OrthographicCameras.OrthographicCamera.SetProjectionMatrix | src/pyhazel/renderer/orthographic_camera.py:37-40 | replaces the projection and combines it with the view as it stands |
| OrthographicCameras.OrthographicCamera.RecalculateViewMatrix | src/pyhazel/renderer/orthographic_camera.py:42-51 | the view is the inverse of translate(position) times rotate(radians(rotation)) about z, and the cache is right |
| CameraControllers.ScrolledZoom | src/pyhazel/orthographic_camera_controller.py:124-126 | the zoom after a scroll is the lowered zoom or 0.25, whichever is larger |
| CameraControllers.OrthographicCameraBounds.constructor | src/pyhazel/orthographic_camera_controller.py:25-30 | bounds with the given sides |
| CameraControllers.OrthographicCameraController.constructor | src/pyhazel/orthographic_camera_controller.py:43-65 | zoom 1, bounds (-aspect, aspect, -1, 1), and a camera projecting them |
| CameraControllers.OrthographicCameraController.SetCameraProjectionMatrix | src/pyhazel/orthographic_camera_controller.py:139-151 | the bounds become the aspect and zoom box and the camera projects them; the camera's view, position and rotation are kept |
| CameraControllers.OrthographicCameraController.SetZoomLevel | src/pyhazel/orthographic_camera_controller.py:71-74 | setting the zoom always recomputes the bounds; the camera's view, position and rotation are kept |
| CameraControllers.OrthographicCameraController.OnResize | src/pyhazel/orthographic_camera_controller.py:119-121 | the aspect becomes width / height and the bounds follow; a zero height raises and changes nothing |
| CameraControllers.OrthographicCameraController.OnMouseScrolled | src/pyhazel/orthographic_camera_controller.py:123-129 | the zoom drops a quarter per step, never below 0.25, the bounds follow, and the event is not handled |
| CameraControllers.OrthographicCameraController.OnWindowResized | src/pyhazel/orthographic_camera_controller.py:131-137 | a zero height changes nothing; otherwise the aspect is width / height; never handled |
| CameraControllers.OrthographicCameraController.OnEvent | src/pyhazel/orthographic_camera_controller.py:113-117 | a scroll event lowers and clamps the zoom with the bounds following; a resize event with zero height changes nothing and otherwise sets the aspect to width / height with the bounds following; both are left unhandled; other events change nothing |
| CameraControllers.SyncedBoundsSize | src/pyhazel/orthographic_camera_controller.py:32-38 | the bounds are `2 * aspect * zoom` wide and `2 * zoom` high, centred on the origin |
| SceneCameras.OrthographicBounds | src/pyhazel/scene/scene_camera.py:104-107 | the bounds are `size * aspect` wide and `size` high, centred on the origin |
| SceneCameras.OrthographicIgnoresClipPlanes | src/pyhazel/scene/scene_camera.py:95-114 | the orthographic projection ignores the near, far and fov settings, and always has depth -1..1 |
| SceneCameras.SceneCamera.constructor | src/pyhazel/scene/scene_camera.py:16-29 | orthographic, size 10, near -1, far 1, aspect 0, fov radians(45), perspective 0.01..1000, projection in step |
| SceneCameras.SceneCamera.RecalculateProjection | src/pyhazel/scene/scene_camera.py:95-114 | the projection matches the settings |
| SceneCameras.SceneCamera.SetProjectionType | src/pyhazel/scene/scene_camera.py:38-41 | stores the type and recomputes the projection |
| SceneCameras.SceneCamera.SetPerspectiveVerticalFov | src/pyhazel/scene/scene_camera.py:47-50 | stores the fov and recomputes the projection |
| SceneCameras.SceneCamera.SetPerspectiveNear | src/pyhazel/scene/scene_camera.py:56-59 | stores the near plane and recomputes the projection |
| SceneCameras.SceneCamera.SetPerspectiveFar | src/pyhazel/scene/scene_camera.py:65-68 | stores the far plane and recomputes the projection |
| SceneCameras.SceneCamera.SetOrthographic | src/pyhazel/scene/scene_camera.py:73-78 | orthographic, with the given size and clip planes, projection in step |
| SceneCameras.SceneCamera.SetPerspective | src/pyhazel/scene/scene_camera.py:80-85 | as written: stays orthographic, the vertical fov is unchanged, only the perspective clip planes change |
| SceneCameras.SceneCamera.SetPerspectiveCorrected | src/pyhazel/scene/scene_camera.py:80-85 | the intended setter: a perspective projection of the given fov and clip planes |
| SceneCameras.SceneCamera.SetOrthographicSize | src/pyhazel/scene/scene_camera.py:87-89 | stores the size and recomputes the projection |
| SceneCameras.SceneCamera.SetViewportSize | src/pyhazel/scene/scene_camera.py:91-93 | the aspect becomes width / height and the projection follows; a zero height raises and changes nothing |
| SceneCameras.PerspectiveRequestStaysOrthographic | src/pyhazel/scene/scene_camera.py:80-85 | asking a new camera for a 60 degree perspective leaves it orthographic, with fov and projection unchanged |
| SceneCameras.PerspectiveRequestCorrected | src/pyhazel/scene/scene_camera.py:80-85 | with the intended setter the same request gives a 60 degree perspective |
| Framebuffers.FramebufferSpecification.constructor | src/pyhazel/renderer/framebuffer.py:9-14 | width and height 0, one sample, no swap-chain target by default |
| Framebuffers.NegativeSizesAccepted | src/pyhazel/platform/opengl/opengl_framebuffer.py:95 | negative sizes pass the guard |
| Framebuffers.ResizeAcceptedBounds | src/pyhazel/platform/opengl/opengl_framebuffer.py:94-98 | the guard accepts exactly non-zero sizes up to 8192 |
| Framebuffers.OpenGLFramebuffer.constructor | src/pyhazel/platform/opengl/opengl_framebuffer.py:10-18 | keeps the caller's specification object and allocates once, freeing nothing |
| Framebuffers.OpenGLFramebuffer.Invalidate | src/pyhazel/platform/opengl/opengl_framebuffer.py:33-85 | frees the old handles only when the framebuffer handle is non-zero, then allocates new ones at the specification's size |
| Framebuffers.OpenGLFramebuffer.Resize | src/pyhazel/platform/opengl/opengl_framebuffer.py:94-103 | a rejected size changes nothing; otherwise the shared specification takes exactly the new size and the attachments are reallocated |
| Framebuffers.ResizeChangesCallersSpecification | src/pyhazel/platform/opengl/opengl_framebuffer.py:29-31 | resizing the framebuffer resizes the specification object its creator holds |
| Framebuffers.OversizeIgnored | src/pyhazel/platform/opengl/opengl_framebuffer.py:94-98 | a size over the maximum is ignored |
| Timesteps.Seconds | src/pyhazel/timestep.py:8-10 | the stored time itself |
| Timesteps.MilliSeconds | src/pyhazel/timestep.py:12-14 | a thousand times the seconds |
| Timesteps.ReadingsMonotone | src/pyhazel/timestep.py:5-14 | both readings grow with the time, and the default reads zero |

## Findings

| source | as written | input that shows it | evidently intended | confidence | as-written member | corrected member |
|---|---|---|---|---|---|---|
| src/pyhazel/layer_stack.py:27 | `pop_layer` refuses only an index greater than `layer_index`, so the item at `layer_index` (the first overlay) is taken as a layer | push one overlay on an empty stack and `pop_layer` it: the stack empties and `layer_index` becomes -1 | only items before `layer_index` are layers: refuse `index >= layer_index`, which keeps the index within bounds | not executed | LayerStacks.PopSoleOverlayAsLayer | LayerStacks.PopSoleOverlayCorrected |
| src/pyhazel/scene/scene_camera.py:80-85 | `set_perspective` sets the type to ORTHOGRAPHIC and stores the angle in an unused `_perspective_fov` | `set_perspective(radians(60), 0.1, 100)` on a new camera: the projection stays orthographic and unchanged | switch to PERSPECTIVE and set `perspective_vertical_fov` | not executed | SceneCameras.PerspectiveRequestStaysOrthographic | SceneCameras.PerspectiveRequestCorrected |

The as-written members are the ones the rest of the model uses, because they
are what the program does; `LayerStacks.PopLayerBounds` characterises the
as-written guard for every input, and `LayerStacks.LayerStack.PopLayerCorrected`
with `LayerStacks.PopLayerCorrectedKeepsBounds` and
`SceneCameras.SceneCamera.SetPerspectiveCorrected` prove the intended
behaviour.

## Left out

- `NONE` in a layout: its size is `None`, so the running sum would raise `TypeError`; layout elements have type `SizedType`, which excludes it.
- `BufferElement` fields other than `offset` are constants, because the core never writes them.
- The order of dictionary entries (`shader_sources`, `self.shaders`) is not modelled; maps are unordered, so which stage `compile` sees first is not captured.
- Utils.FindAllSubstrings: requires a non-empty `sub`; with an empty one the generator never advances and yields position 0 forever.
- Vertex attribute numbering restarts at 0 for every vertex buffer added, as the code does (a second buffer overwrites the first's attribute slots); the model follows the code.
- The GL and driver effects (buffer creation and uploads, texture parameters and uploads, `glCheckFramebufferStatus`'s assertion, shader compilation and linking, uniforms, `bind`/`unbind`) are not modelled beyond the calls the modelled operations log; handles the driver returns are parameters.
- `OpenGLShader.create_from_filepath`, `read_file` and `compile`: file reading and GL compilation; the program handle is a parameter of `CreateFromSource`.
- ShaderLibraries.ShaderLibrary.Get: takes a string; a `None` lookup fails the same assertion, since `None` is never a key.
- `ShaderLibrary.load` calls `Shader.create_from_file`, which does not exist; it is not modelled.
- The batching renderer does not exist in this code (`Renderer2D` issues one draw per quad), so nothing of `renderer_2d.py` or `renderer.py` is modelled; `Renderer.on_window_resize` is recorded in `rendererResizes`.
- `Application.push_layer` and `push_overlay` only delegate to the stack and are not modelled separately; `run`, the window, `Renderer.init`, the ImGui overlay the constructor pushes and the singleton assertion are not modelled.
- What a layer's `on_event` does is given as the parameter `respond`; the base `Layer` hooks do nothing, so they are recorded as calls only.
- OrthographicCameras.OrthographicCamera: the `position` getter returns the stored vec3 itself, so a caller that changes its components in place changes the camera's position without `_recalculate_view_matric` running, leaving `view_matrix` out of step; positions are values here, so that aliasing is not captured (no modelled caller does it: the controller always goes through the setter).
- `OrthographicCameraController.update` (keyboard-driven movement and rotation, trigonometry over floats) is not modelled; the controller's position and rotation fields are left out.
- The instrumentor's lock, the clock (`perf_counter_ns`), the JSON encoding and the file handle are not modelled; the warning printed on a second `begin_session` is not modelled; `__exit__` returning true (swallowing the block's exception) and the `HZ_PROFILE_FUNCTION` decorator are not modelled.
- `ProfileResult` declares its times as `int`, but the timer passes floating-point microseconds; the model uses reals.
- glm values are symbolic terms; `glm.radians` multiplies by the double nearest π; no product, inverse or projection is evaluated, so facts that need matrix algebra are not stated.
- Floating point is modelled as real arithmetic: no rounding, no infinities.
- `Timestep`'s time is a real; Python would accept any number.
- The event classes' `__str__`, `get_category_flags` and `EventCategory` flags are not modelled.
- Events.EventDispatcher.Dispatch: the event class argument is given by its static type, since a class object has no other role in the comparison.
