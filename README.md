# Batched draw-command encoding for multi-draw-indirect rendering

This project models the host-side batching logic of a deferred-shading renderer. The renderer draws thousands of static objects with a single `glMultiDrawArraysIndirect` call. The model covers four parts:

- **Drawables** (`drawables.dfy`). Each object holds interleaved vertex data and a position and colour. Its vertex count is `(unsigned int)verts.size()/6`. `Object::draw` appends the object to the frame's pending list, `g_objects`.
- **Encoder** (`encoder.dfy`). One pass over the submitted objects builds three things:
  - the concatenated vertex array;
  - the per-instance array, six floats per object (position, then colour);
  - one `DrawArraysIndirectCommand` per object. Command *i* has `count` equal to the object's vertex count and `instanceCount` 1. Its `firstVertex` is the running vertex total and its `baseInstance` is *i*.

  Method `Encode` is proved equal to reference definitions (`Commands`, `VertexBuffer`, `InstanceBuffer`). Lemmas then prove the round trips. The slice a command selects from the vertex array is that object's vertex data. The instance slot it selects is that object's position and colour.
- **Batch cache and frame dispatch** (`batch.dfy`). `Pipeline` holds the statics of `drawObjects`: `firstRun` and the command list. Its mode is fixed at construction. It mirrors the two build configurations:
  - **`StaticDraw`** (`STATIC_DRAW`, the default). Only the first call encodes and uploads the vertex and instance arrays. Every later call keeps the command list and both buffers exactly as the first call left them.
  - **`Regenerating`** (no macro). Every call rebuilds everything from an empty list.

  The GPU buffers are ghost fields holding what was last uploaded. `DrawDispatched` encodes the pending list and then empties it.
- **Light records** (`lights.dfy`). Each light is packed into a 32-byte `LightData` record: position, one padding float, colour, power. The lemmas show two things. The record's offsets (0, 16, 28) and stride (32) are the std140 layout of the shader's `{vec3 position; vec3 color; float power}` block. The shader reading light *i* at those offsets gets back what was packed for light *i*.

Integer widths are explicit. Every `DrawArraysIndirectCommand` field, the running counters `numVerts` and `count`, and the vertex count are `unsigned int`, so they wrap modulo 2^32 (`U32Cast`). The cast in `(unsigned int)verts.size()/6` binds before the division, so the size is truncated first. Vertex, position and colour values are only copied, never computed on, so `Float` is a plain `real` type.

The vertex round trip (`VertexRoundTrip`) has two preconditions:

- every object's data is a whole number of 6-float records;
- the concatenated array is shorter than 2^32 floats.

The source checks neither. With a partial record, `verts.size()/6` rounds down while all the floats are still appended, so every later object's `firstVertex` points into the wrong data.

Two behaviours of the code are easy to miss:

- In static mode the indirect-command buffer is re-uploaded on every call (src/main.cpp:483 lies outside the `firstRun` block). Only the encode and the vertex and instance uploads are skipped.
- The cache is never invalidated. The code has no "mark dirty" operation, so a later call's objects are ignored entirely, whatever they are.

## Model

| member | source | states |
|---|---|---|
| Drawables.VertexCount | src/main.cpp:174-176 | the vertex count is the number of whole 6-float records in the size truncated to 32 bits: 6c ≤ (size mod 2^32) < 6c+6 for every size; for sizes below 2^32 that is 6c ≤ size < 6c+6, exactly size/6 for whole records; and always below 2^32 |
| Drawables.Object.constructor | src/main.cpp:192-198 | an object keeps its vertex data and instance data, and its vertex count is fixed from the vertex data as `Drawable`'s constructor does |
| Drawables.Object.Draw | src/main.cpp:227-229 | `draw` appends exactly this object to the end of the pending list and changes nothing else |
| Drawables.DrawQueue.constructor | src/main.cpp:224 | the pending list starts empty |
| Encoder.Encode | src/main.cpp:408-443 | the loop yields exactly the reference command list, the concatenation of all vertex data, the instance records in order, and `numVerts` equal to the total vertex count modulo 2^32 |
| Encoder.AppendAll | src/main.cpp:434 | copying an object's floats one by one appends exactly that object's data to the vertex array |
| Encoder.EncodeStep | src/main.cpp:419-438 | one iteration keeps the loop invariant: `count++` and `numVerts +=` keep wrapping the exact index and the exact running total, and each array grows by exactly object i's part |
| Encoder.CommandsSnoc | src/main.cpp:419-424 | encoding one more object appends exactly one command, for that object, whose offset is the total of all earlier objects' vertex counts |
| Encoder.VertexBufferLength | src/main.cpp:433-434 | with whole records and no overflow, the vertex array holds exactly 6 floats per counted vertex |
| Encoder.VertexRoundTrip | src/main.cpp:420-434 | command i starts at the exact sum of the earlier vertex counts and has count = size/6, and the vertex range it selects is exactly object i's vertex data |
| Encoder.InstanceSlotAt | src/main.cpp:435-438 | the instance array has 6 floats per object, and slot i holds object i's position x,y,z then colour x,y,z |
| Encoder.InstanceRoundTrip | src/main.cpp:421-438 | command i has `baseInstance` i and `instanceCount` 1, and the instance slot it selects is object i's record |
| Encoder.CommandsDrawAllVertices | src/main.cpp:420-433 | there is one command per object, and the command counts add up to the total vertex count, so the sub-draws together draw every vertex once |
| Encoder.VertexSlice | src/main.cpp:454-458 | a sub-draw fetches 6 floats per vertex from its vertex range, and fetches nothing exactly when that range runs past the array |
| Encoder.InstanceSlot | src/main.cpp:466-473 | a sub-draw's single instance fetches the 6 floats of slot `baseInstance`, and fetches nothing exactly when that slot runs past the array |
| Encoder.TriangleAndQuad | src/main.cpp:408-443 | a 3-vertex and a 6-vertex object encode to commands {3,1,0,0} and {6,1,3,1}, 54 vertex floats and 12 instance floats |
| Batch.Pipeline.constructor | src/main.cpp:396-403 | a fresh pipeline has `firstRun` set, no commands and empty buffers, in the chosen mode |
| Batch.Pipeline.DrawObjects | src/main.cpp:394-496 | a call that rebuilds (regenerating mode, or the first static call) stores exactly the commands of its objects and uploads their vertex and instance arrays (an empty upload leaves a buffer as it was); any later static call changes neither the command list nor those buffers; every call clears `firstRun` in static mode, re-uploads the command list and issues one sub-draw per command; the cache invariant is preserved |
| Batch.Pipeline.DrawDispatched | src/main.cpp:543-555 | the frame draws exactly the objects pending before the call, as `DrawObjects` would, and leaves the pending list empty |
| Batch.RenderFrame | src/main.cpp:744-745 | registering each object with `draw` and then dispatching leaves the pending list empty; when the pipeline rebuilds, the encoded list is exactly the objects in registration order, so the commands, the vertex upload and the instance upload (slot i = i-th registered object's position and colour) are those of that list; otherwise the cached commands and buffers are unchanged; the command list is re-uploaded and drawn with one sub-draw per command |
| Batch.StaticBatchIsReused | src/main.cpp:387-477 | in static mode a second call with any objects keeps exactly the first call's command list and instance data |
| Batch.RegeneratingIsIdempotent | src/main.cpp:405-463 | in regenerating mode two calls on the same objects give identical command lists and identical vertex and instance buffers |
| Lights.PackLights | src/main.cpp:363-373 | the loop packs exactly `lightCount` records (none for a negative count), and record i is light i's position with zero padding, white colour and power 1 |
| Lights.LightDataIsStd140 | src/main.cpp:354-361 | the std140 layout of {vec3, vec3, float} puts the members at bytes 0, 16 and 28 with a 32-byte stride, and the record's 8 floats fill exactly that stride with padding at byte 12 |
| Lights.LightBufferLength | src/main.cpp:377 | the uploaded size is 32 bytes per light |
| Lights.LightBufferRecordAt | src/main.cpp:364-377 | record i occupies floats 8i to 8i+8 of the uploaded buffer |
| Lights.ReadLightAt | src/main.cpp:355-360 | reading light i at offsets 0, 16 and 28 of a 32-byte record takes floats 8i..8i+2, 8i+4..8i+6 and 8i+7 |
| Lights.LightRoundTrip | src/main.cpp:355-377 | the shader reading light i at the std140 offsets gets exactly the position, colour and power packed for light i |
| Lights.SetupLights | src/main.cpp:363-377 | packing and uploading the 200 lights gives a buffer of 32 × 200 bytes from which light i reads back as light i's position, white and power 1 |

## Left out

- OpenGL calls are not modelled (src/main.cpp:273-343, 450-525, 756-763). These are buffer, VAO, texture, framebuffer and renderbuffer creation, vertex attribute layouts and divisors, the GBuffer clear, the lighting pass, and the screen-quad draw. Uploads are ghost fields. The multi-draw is the ghost draw count it receives.
- Uploading from `&verts[0]` of an empty vector is undefined behaviour in the source (src/main.cpp:452, 463, 483). The model treats an empty upload as a no-op that leaves the buffer unchanged.
- `Shader`, `loadShaderSource` and every uniform set through them are left out. They are file I/O and GL wrappers.
- `Camera` and `cameraController` are left out. They are floating-point matrix maths and keyboard polling.
- Random light placement (src/main.cpp:346-351) is left out. It uses a nondeterministic generator, so the light positions are an input to `PackLights` and `SetupLights`.
- The shader sources are not part of this model. The shader's light block is taken to be `{vec3 position; vec3 color; float power}`, with the base alignments the comment at src/main.cpp:356-360 gives.
- `main` is left out, except for one frame's `draw`-then-dispatch sequence (`RenderFrame`). That means window setup, timing, scene construction and deleting objects at shutdown are not modelled.
- The commented-out `ObjectInstanced` path is dead code and is not modelled.
- The macro combination `NO_REGENERATING_DRAW_CALLS` without `STATIC_DRAW` does not compile, because `firstRun` is undeclared. Only the two configurations that build are modelled.
- The `STATIC_DRAW`-without-`NO_REGENERATING_DRAW_CALLS` branch at src/main.cpp:426-430 is not modelled: lines 389-391 make `STATIC_DRAW` imply `NO_REGENERATING_DRAW_CALLS`, so it cannot be compiled in. Read as written, that combination rebuilds the local command list every call but adds to `numVerts` only on the first run, so from the second frame every command has `firstVertex` 0 and draws the first object's vertices. The FIXME at src/main.cpp:385 ("only draws tris") describes that combination, not the two modelled modes (`StaticDraw` and `Regenerating`), whose encoding is proved correct here.
- In static mode the source still walks the object list on later calls, doing nothing per object. The model skips that walk, which has no effect.
- Float values are never computed on, so float representation and rounding are not modelled.
