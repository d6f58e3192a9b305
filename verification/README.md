# VectorStorm render queue, renderer state, render buffer and sound slots in Dafny

This project models four pieces of the VectorStorm engine's renderer and
sound layer as immutable data and pure functions, and proves what they
promise.

- **Render queue** (`render_queue_stage.dfy`, `render_queue_stage_properties.dfy`,
  `render_queue.dfy`, `transform_stack.dfy`).
  - A `vsRenderQueueStage` keeps a list of batches sorted by material layer.
    Each batch holds the elements submitted with its material.
  - Batches and elements are recycled through free-list pools.
  - `vsRenderQueue` routes each material to one of its stages by the glow
    flags, draws the stages in order, then draws the generic list.
  - It also owns the bounded transform stack (`MAX_SCENE_STACK` = 20).
- **Renderer state** (`renderer_state.dfy`). Thirteen boolean slots, one
  integer slot and one float-pair slot, each holding a value and the shadow
  of what was last sent to the GPU.
  - `Flush` issues one call per changed slot: booleans, then integers, then
    float pairs.
  - `Force` re-issues every boolean and integer slot but not the float pair.
- **Render buffer** (`render_buffer.dfy`). A CPU byte array with a capacity
  and an active size, optionally mirrored into a GPU buffer object.
  - The typed `SetArray` overloads record the vertex layout.
  - `Bind`/`Unbind` toggle the matching client-array slots of the renderer
    state.
  - `UnmapAll`/`MapAll` rebuild every buffer object after a device reset.
- **Sound system** (`sound_system.dfy`). A fixed table of deferred samples
  with fuses, plus the counters of mixer channels in use and their
  high-water mark.

Modelling choices:
- Linked lists are sequences.
- A free-list pool is the count of free objects, next to the count of
  objects ever allocated.
- Matrices are an opaque type parameter `M`, combined by a caller-supplied
  `mul`.
- Material equality (`vsMaterial::operator==`, not part of this model) is
  the parameter `same`.
- An assertion whose failure would lead to undefined behaviour is a
  precondition. Examples: EndRender reading each batch's first element, and
  GetPosition reading past the array for a layout its switch handles.
- An assertion after which the code carries on with a defined fallback is
  modelled as the fallback. Examples:
  - `GetStage` returning null, and `GetPositionCount` returning 0.
  - `GetPosition` returning the zero vector without a layout or for PCT.
  - `Bind` with no layout, and a zero-length upload.
  - A stage's `StartRender` with batches left over, and `GetTopMatrix` at
    depth 0.

Where the design description and the code disagree, the model follows the
code:
- Pushing past the bound and then popping the same number of times does
  not return the stack to depth 1. A push at the bound writes nothing and
  keeps the depth, while every pop decrements. After 20 pushes and 20 pops
  from depth 1 the depth is 0 (`TransformStack.OverflowThenPopsEmpties`).
- After `vsRenderQueue::Draw` the transform depth is 0, not 1. Draw takes
  the depth down one level from the 1 that `StartRender` set, and asserts
  it is 0 (`RenderQueue.Draw`, `RenderQueue.FrameBalanced`).

## Model

| member | source | states |
|---|---|---|
| RenderQueueStage.NewStage | VS/Graphics/VS_RenderQueue.cpp:31-37 | a new stage has no batches, empty pools, nothing allocated and no temporary lists, and is valid |
| RenderQueueStage.FindExisting | VS/Graphics/VS_RenderQueue.cpp:58-64 | the result is the first batch whose material compares equal, or none exists |
| RenderQueueStage.InsertionPoint | VS/Graphics/VS_RenderQueue.cpp:75-110 | every batch before the insertion point has layer <= the new layer, and the batch at it has a strictly greater layer |
| RenderQueueStage.FindBatch | VS/Graphics/VS_RenderQueue.cpp:55-114 | an existing equal batch is returned with the stage unchanged. Otherwise a new batch goes before the first batch of greater layer, the count grows by one, and a batch is allocated only when the pool is empty |
| RenderQueueStage.AddBatch | VS/Graphics/VS_RenderQueue.cpp:117-136 | the element goes to the front of the found batch's list and no other batch changes. An element is allocated only when its pool is empty |
| RenderQueueStage.MakeTemporaryBatchList | VS/Graphics/VS_RenderQueue.cpp:138-160 | a new temporary list slot of the requested size is recorded, and the list is returned under that slot. Batches, pools and allocation totals end exactly as AddBatch leaves them, so an element is allocated iff the element pool is empty |
| RenderQueueStage.StartRender | VS/Graphics/VS_RenderQueue.cpp:162-170 | the batch count is reset and nothing else changes, even when the batch list is not empty. An empty stage with balanced pools becomes valid |
| RenderQueueStage.DrawElementsFrames | VS/Graphics/VS_RenderQueue.cpp:183-192 | element i is drawn as SetMatrix, Append of its list, PopTransform, at positions 3i..3i+2 |
| RenderQueueStage.Draw | VS/Graphics/VS_RenderQueue.cpp:172-196 | one material command per batch plus three commands per element |
| RenderQueueStage.EndRender | VS/Graphics/VS_RenderQueue.cpp:198-223 | the batch list, count and temporary lists are emptied. Every batch and element goes back to its pool, so a balanced stage has all allocations free |
| RenderQueueStageProperties.FindBatchKeepsOrder | VS/Graphics/VS_RenderQueue.cpp:75-110 | the batch list stays sorted by layer, and a new batch lands after every batch of equal layer |
| RenderQueueStageProperties.FindBatchKeepsPools | VS/Graphics/VS_RenderQueue.cpp:58-114 | the count tracks the list and the pools balance. Batches allocated equals the high-water mark of the list length |
| RenderQueueStageProperties.AddBatchKeepsValid | VS/Graphics/VS_RenderQueue.cpp:117-136 | validity is kept. Exactly one element and one occurrence of the submitted list are added, and the allocation totals are high-water marks |
| RenderQueueStageProperties.AddAllKeepsValid | VS/Graphics/VS_RenderQueue.cpp:117-136 | across any submissions, validity is kept and the held lists grow by exactly the submitted lists, as a multiset |
| RenderQueueStageProperties.AddAllHighWater | VS/Graphics/VS_RenderQueue.cpp:66-69 | across any submissions, the allocation totals equal the high-water marks of batches and elements in use |
| RenderQueueStageProperties.DrawBatchesContents | VS/Graphics/VS_RenderQueue.cpp:172-196 | Draw appends the elements' lists batch by batch, and selects the batches' materials in list order |
| RenderQueueStageProperties.FrameRoundTrip | VS/Graphics/VS_RenderQueue.cpp:162-223 | in one frame every submitted list is drawn exactly once and materials come out in non-decreasing layer. EndRender then returns every allocation to its pool |
| RenderQueueStageProperties.OneMaterialReversed | VS/Graphics/VS_RenderQueue.cpp:117-136 | submissions under one material form one batch whose elements are in reverse submission order |
| RenderQueueStageProperties.InsertFresh | VS/Graphics/VS_RenderQueue.cpp:75-136 | a material matching no batch gets a new one-element batch, placed before the first batch of greater layer |
| RenderQueueStageProperties.LayerScenario | VS/Graphics/VS_RenderQueue.cpp:75-110 | materials submitted with layers 5, 1, 3 are drawn in layer order 1, 3, 5 |
| RenderQueueStageProperties.EqualLayerScenario | VS/Graphics/VS_RenderQueue.cpp:75-110 | two different materials of equal layer are drawn in submission order |
| RenderQueue.NewQueue | VS/Graphics/VS_RenderQueue.cpp:225-233 | the given number of stages, each empty and valid, an empty generic list and transform depth 0 |
| RenderQueue.PickStageForMaterial | VS/Graphics/VS_RenderQueue.cpp:480-492 | stage 2 iff post-glow, stage 1 iff glow without post-glow, stage 0 otherwise |
| RenderQueue.AddBatch | VS/Graphics/VS_RenderQueue.cpp:372-378 | only the picked stage changes, and it changes as the stage's AddBatch does |
| RenderQueue.AddFragmentBatch | VS/Graphics/VS_RenderQueue.cpp:380-384 | only the picked stage changes. The fragment's list is put at the front of its material's batch, paired with the matrix on top of the transform stack |
| RenderQueue.FragmentRoutes | VS/Graphics/VS_RenderQueue.cpp:372-384 | a fragment adds its list to the picked stage's multiset of lists and to no other stage, and validity is kept |
| RenderQueue.MakeTemporaryBatchList | VS/Graphics/VS_RenderQueue.cpp:386-392 | only the picked stage changes, and it changes as the stage's MakeTemporaryBatchList does |
| RenderQueue.MakeTemporaryBatchListAtCamera | VS/Graphics/VS_RenderQueue.cpp:394-400 | only the picked stage changes. It records a new temporary list of the requested size and returns it, and the list goes to the front of its material's batch, paired with stack slot 0 |
| RenderQueue.TemporaryRoutes | VS/Graphics/VS_RenderQueue.cpp:394-400 | the new temporary list is added to the picked stage's multiset of lists and to no other stage. It is recorded in that stage for release, and validity is kept |
| RenderQueue.GetStage | VS/Graphics/VS_RenderQueue.cpp:402-413 | a stage is returned iff the index is in range, and none otherwise |
| RenderQueue.StartRender | VS/Graphics/VS_RenderQueue.cpp:241-253 | the stack is initialised at depth 1, every stage is started and the generic list is cleared. An idle, valid queue stays idle and valid |
| RenderQueue.Draw | VS/Graphics/VS_RenderQueue.cpp:255-266 | the output keeps its prefix and ends with the generic list. The stack drops one level, and the balance check holds iff the depth was 1 |
| RenderQueue.EndRender | VS/Graphics/VS_RenderQueue.cpp:268-276 | every stage is ended and the generic list is cleared, with validity kept |
| RenderQueue.DrawContents | VS/Graphics/VS_RenderQueue.cpp:255-266 | Draw appends every stage's lists in stage order, then the generic list's |
| RenderQueue.AddBatchRoutes | VS/Graphics/VS_RenderQueue.cpp:372-378 | a submission adds its list to the picked stage's multiset and to no other stage |
| RenderQueue.FrameBalanced | VS/Graphics/VS_RenderQueue.cpp:255-266 | a frame whose pushes and pops pair up within the bound satisfies Draw's balance assertion and restores the top matrix |
| TransformStack.Seed | VS/Graphics/VS_RenderQueue.cpp:324 | seeding sets depth 1 with the starting matrix in slot 0 |
| TransformStack.Push | VS/Graphics/VS_RenderQueue.cpp:416-430 | below the bound the new slot is the product of the old top and the matrix, and the depth grows by one. At the bound nothing changes. The top is returned either way |
| TransformStack.PushTransform2D | VS/Graphics/VS_RenderQueue.cpp:431-447 | below the bound the new top is the old top times the transform's matrix, the depth grows by one and lower slots are kept. At the bound nothing changes |
| TransformStack.PushTransform2DIsPush | VS/Graphics/VS_RenderQueue.cpp:414-447 | pushing a 2D transform has exactly the effect of PushMatrix with its matrix |
| TransformStack.PushTranslation | VS/Graphics/VS_RenderQueue.cpp:448-456 | below the bound the new top is the old top times the translation matrix, and lower slots are kept. At the bound nothing changes |
| TransformStack.Pop | VS/Graphics/VS_RenderQueue.cpp:457-463 | the depth drops by one and the slots are kept |
| TransformStack.Deinitialise | VS/Graphics/VS_RenderQueue.cpp:359-371 | the depth drops by one on both branches |
| TransformStack.PushAllComposes | VS/Graphics/VS_RenderQueue.cpp:416-430 | after any pushes, every live slot is the left fold of the pushed matrices over the base, up to the bound |
| TransformStack.TopOfPush | VS/Graphics/VS_RenderQueue.cpp:416-470 | below the bound, GetMatrix after a push is the old GetMatrix times the pushed matrix, and a pop restores it. At the bound GetMatrix is unchanged |
| TransformStack.BottomStable | VS/Graphics/VS_RenderQueue.cpp:416-478 | GetTopMatrix is unchanged by any pushes, and by any pops that leave the depth positive |
| TransformStack.PushAllBlocked | VS/Graphics/VS_RenderQueue.cpp:419-429 | at the bound, any number of pushes changes nothing |
| TransformStack.PushPopBalanced | VS/Graphics/VS_RenderQueue.cpp:416-463 | within the bound, n pushes then n pops restore the depth, the top and slot 0 |
| TransformStack.OverflowThenPopsEmpties | VS/Graphics/VS_RenderQueue.cpp:416-463 | from depth 1, twenty pushes reach depth 20 and twenty pops reach depth 0 |
| TransformStack.RotationsMirror | VS/Graphics/VS_RenderQueue.cpp:284-297 | the 2D rotation is the 3D rotation mirrored, (360 - d) mod 360. They agree iff the orientation is Normal or Six |
| TransformStack.RotationsDistinct | VS/Graphics/VS_RenderQueue.cpp:329-342 | each branch gives the four orientations four different rotations |
| TransformStack.RotationDegrees3D | VS/Graphics/VS_RenderQueue.cpp:284-297 | the 3D rotation is a multiple of 90 degrees in [0, 360) |
| TransformStack.RotationDegrees2D | VS/Graphics/VS_RenderQueue.cpp:329-342 | the 2D rotation is a multiple of 90 degrees in [0, 360) |
| TransformStack.Initialise | VS/Graphics/VS_RenderQueue.cpp:278-357 | depth 1 with slot 0 on top. In 3D it holds the rotation times the handedness flip, inverse basis and offset. In 2D it holds the camera matrix times the rotation |
| RendererState.IndexOf | VS/Graphics/VS_RendererState.cpp:119-138 | each boolean slot has one index in the slot table |
| RendererState.Init | VS/Graphics/VS_RendererState.cpp:117-144 | every boolean is false, the cull face is 0, the polygon offset is (0, 0), and nothing is pending |
| RendererState.SetBool | VS/Graphics/VS_RendererState.cpp:162-168 | only the keyed slot's value changes, and no shadow changes |
| RendererState.SetInt | VS/Graphics/VS_RendererState.cpp:184-190 | only the keyed integer value changes, and its shadow is kept |
| RendererState.SetFloat2 | VS/Graphics/VS_RendererState.cpp:178-182 | only the keyed pair changes, and its shadow is kept |
| RendererState.Flush | VS/Graphics/VS_RendererState.cpp:192-219 | all values are kept and every shadow catches up |
| RendererState.Force | VS/Graphics/VS_RendererState.cpp:222-237 | one call per boolean slot in index order, then the cull-face call, whatever the shadows say. Nothing is issued for the float pair, whose slot is left as it was |
| RendererState.FlushIsMinimal | VS/Graphics/VS_RendererState.cpp:192-219 | Flush issues exactly one call per changed slot, and none iff nothing changed |
| RendererState.FlushIdempotent | VS/Graphics/VS_RendererState.cpp:192-219 | a second Flush issues nothing and changes nothing |
| RendererState.FlushCallsCount | VS/Graphics/VS_RendererState.cpp:195-218 | each setter class's pass issues exactly as many calls as it has changed slots |
| RendererState.FlushCallsClean | VS/Graphics/VS_RendererState.cpp:195-218 | a pass over slots that are all in sync issues nothing |
| RendererState.FlushCallsSingle | VS/Graphics/VS_RendererState.cpp:195-200 | with a single changed slot in a pass, the pass issues just that slot's call |
| RendererState.ForceCalls | VS/Graphics/VS_RendererState.cpp:225-232 | a forced pass issues each slot's call for its current value, one per slot, in slot order |
| RendererState.SetBoolThenFlush | VS/Graphics/VS_RendererState.cpp:162-219 | from a synced state, SetBool then Flush issues the slot's call iff the value changed |
| RendererState.ForceThenFlush | VS/Graphics/VS_RendererState.cpp:192-237 | after Force, Flush issues only the pending polygon-offset call |
| RendererState.BoolCallMapping | VS/Graphics/VS_RendererState.cpp:22-71 | enable setters enable or disable their capability, the depth mask passes its value, and the client arrays map to attribute indices 0 to 3 |
| RendererState.BoolCallInjective | VS/Graphics/VS_RendererState.cpp:119-138 | different slots or values never issue the same call |
| RendererState.BoolCall | VS/Graphics/VS_RendererState.cpp:22-71 | the call switches its state on iff the value is true. The first eight slots issue enable/disable of themselves, the depth mask issues glDepthMask, and the four client-array slots address attributes 0 to 3 in slot order |
| RendererState.ScalarCalls | VS/Graphics/VS_RendererState.cpp:89-115 | glCullFace carries the stored mode and glPolygonOffset the stored pair with its halves swapped. Both are injective and never equal a boolean slot's call |
| RenderBuffer.NewBuffer | VS/Graphics/VS_RenderBuffer.cpp:28-49 | an empty buffer with no layout, which gets a buffer object iff the driver has glGenBuffers and the type is not NoVBO |
| RenderBuffer.SetArraySize | VS/Graphics/VS_RenderBuffer.cpp:63-82 | the CPU array is replaced by one of exactly the request iff there is none or the request exceeds capacity. The active size becomes the request |
| RenderBuffer.SetArrayInternal | VS/Graphics/VS_RenderBuffer.cpp:84-132 | the GPU storage is reallocated iff a buffer object exists and the size exceeds its allocation. Bytes from a caller land at the start of the CPU array, and the buffer's own bytes are left alone. A zero size goes through the same steps |
| RenderBuffer.SetArray | VS/Graphics/VS_RenderBuffer.cpp:134-212 | layout arrays set the content tag, the vector and colour arrays keep it, and the uint16 array marks index data. The active size is count times element size |
| RenderBuffer.SetElementArraySize | VS/Graphics/VS_RenderBuffer.cpp:214-236 | the active size becomes count times the element size. The CPU array is kept iff it exists and can hold that many bytes; otherwise it is replaced by one of exactly that size. The GPU side, content tag and index flag are unchanged |
| RenderBuffer.SizeThenUpload | VS/Graphics/VS_RenderBuffer.cpp:134-236 | sizing an element array for n elements and then uploading n of them keeps the capacity, and every uploaded byte lands in place |
| RenderBuffer.Bake | VS/Graphics/VS_RenderBuffer.cpp:238-248 | only the index flag and the GPU allocation change, and the CPU bytes stay. An empty buffer is baked like any other |
| RenderBuffer.GetPositionCount | VS/Graphics/VS_RenderBuffer.cpp:603-633 | capacity divided by layout size (floor), and 0 without a layout |
| RenderBuffer.GetPosition | VS/Graphics/VS_RenderBuffer.cpp:636-680 | for a layout with a case in the switch, record i is the layout-size cells starting at i times the layout size. Without a layout, or for PCT, the result is the zero vector |
| RenderBuffer.DrawIndexed | VS/Graphics/VS_RenderBuffer.cpp:683-758 | every indexed draw issues active bytes / 2 indices, from the buffer object iff there is one |
| RenderBuffer.GpuHighWater | VS/Graphics/VS_RenderBuffer.cpp:97-104 | with a buffer object, the GPU allocation becomes the larger of itself and the upload size |
| RenderBuffer.PositionRoundTrip | VS/Graphics/VS_RenderBuffer.cpp:127-131 | after a layout upload, the corrected reader returns the i-th record written, for every layout. GetPosition does the same except for PCT. The active count is the number of records written |
| RenderBuffer.ActivePositionCount | VS/Graphics/VS_RenderBuffer.cpp:603-633 | the corrected count is never more than GetPositionCount |
| RenderBuffer.GetActivePosition | VS/Graphics/VS_RenderBuffer.cpp:636-680 | the corrected reader returns record i of the last upload for every layout. It agrees with GetPosition wherever GetPosition has a case for the layout |
| RenderBuffer.PctPositionLost | VS/Graphics/VS_RenderBuffer.cpp:636-680 | after a PCT upload GetPosition returns the zero vector for every record, while the corrected reader returns the record |
| RenderBuffer.StalePositionCount | VS/Graphics/VS_RenderBuffer.cpp:603-633 | after writing two records and then one, GetPositionCount is 2, the active count is 1, and GetPosition(1) returns the stale record |
| RenderBuffer.IndexCountRoundTrip | VS/Graphics/VS_RenderBuffer.cpp:209-212 | after a uint16 upload every draw issues one index per value written |
| RenderBuffer.SetSlots | VS/Graphics/VS_RenderBuffer.cpp:343-601 | the listed slots take the value, and every other slot and every shadow is unchanged |
| RenderBuffer.Bind | VS/Graphics/VS_RenderBuffer.cpp:343-560 | with a layout, the layout's client-array slots are set true. Every other slot, every shadow and the scalar slots are unchanged. Without a layout the state is unchanged |
| RenderBuffer.Unbind | VS/Graphics/VS_RenderBuffer.cpp:561-601 | with a layout, the layout's client-array slots are set false. Every other slot, every shadow and the scalar slots are unchanged. Without a layout the state is unchanged |
| RenderBuffer.BindSlotsMatchLayout | VS/Graphics/VS_RenderBuffer.cpp:343-601 | Bind and Unbind touch the same slots: always the vertex array, plus colour, normal and texel exactly when the layout has them |
| RenderBuffer.BindEffect | VS/Graphics/VS_RenderBuffer.cpp:343-601 | Bind sets the layout's slots true and Unbind sets them false. Other slots and all shadows are unchanged |
| RenderBuffer.UnmapAll | VS/Graphics/VS_RenderBuffer.cpp:761-773 | every buffer loses its buffer object and GPU allocation |
| RenderBuffer.MapAll | VS/Graphics/VS_RenderBuffer.cpp:775-796 | every buffer, empty ones included, gets a buffer object where it had one or where the driver and type allow one. With a buffer object the GPU allocation grows to the active bytes. The CPU side and the tags are unchanged |
| RenderBuffer.ResetReuploads | VS/Graphics/VS_RenderBuffer.cpp:761-796 | after UnmapAll then MapAll, a buffer has a buffer object iff the driver and type allow. With a buffer object its GPU allocation is exactly its active bytes, and 0 otherwise. Its CPU side, content tag and index flag are unchanged |
| SoundSystem.NewSystem | VS/Sound/VS_SoundSystem.cpp:26-68 | no channel is in use and the high-water mark is 0 |
| SoundSystem.Init | VS/Sound/VS_SoundSystem.cpp:79-86 | every slot is empty |
| SoundSystem.FirstEmpty | VS/Sound/VS_SoundSystem.cpp:197-205 | the first empty slot, or none iff all are occupied |
| SoundSystem.PlaySoundDeferred | VS/Sound/VS_SoundSystem.cpp:194-206 | the first empty slot takes the sample and fuse and no other slot changes. With no empty slot nothing changes |
| SoundSystem.CancelDeferredSounds | VS/Sound/VS_SoundSystem.cpp:208-216 | exactly the slots holding the sample are emptied |
| SoundSystem.SlotStep | VS/Sound/VS_SoundSystem.cpp:117-129 | an occupied slot's fuse drops by the step. It fires and empties iff the fuse reaches 0 or below. An empty slot is untouched |
| SoundSystem.Update | VS/Sound/VS_SoundSystem.cpp:114-130 | every slot steps. The samples played are exactly those of occupied slots whose fuse reached 0, in slot order. The count in use grows by the channels that started, and the high-water mark rises to the final count iff any started |
| SoundSystem.PlayAll | VS/Sound/VS_SoundSystem.cpp:164-183 | after a run of PlaySound calls, the count in use grows by the starts. The high-water mark is unchanged without a start, and otherwise is the larger of its start and the final count |
| SoundSystem.FiredExactly | VS/Sound/VS_SoundSystem.cpp:114-130 | the samples played are exactly those of occupied slots whose fuse reached 0, in slot order |
| SoundSystem.FuseBurnsDown | VS/Sound/VS_SoundSystem.cpp:114-130 | a deferred sample survives a run of updates iff every running total stays below its fuse, and its fuse is then reduced by the total |
| SoundSystem.PlaySound | VS/Sound/VS_SoundSystem.cpp:164-183 | a channel other than -1 adds one channel in use and raises the high-water mark to at least that. Channel -1 changes nothing |
| SoundSystem.ChannelFinished | VS/Sound/VS_SoundSystem.cpp:132-138 | one channel fewer in use |
| SoundSystem.StopChannel | VS/Sound/VS_SoundSystem.cpp:185-192 | nothing for channel -1, otherwise a 500 ms fade-out of that channel |
| SoundSystem.HighWaterIsPeak | VS/Sound/VS_SoundSystem.cpp:132-183 | over any run of events the high-water mark stays at or above the channels in use. It equals the larger of its start and the peak in use, and the count moves by starts minus finishes |

## Left out

- OpenGL and SDL_mixer calls are reduced to the decisions the code makes.
  This covers buffer creation and binding, mapping, `glDrawElements`,
  enable/disable, and mixing. The driver's behaviour is outside this model.
- The stride and offset computation in `Bind`/`Unbind`
  (VS/Graphics/VS_RenderBuffer.cpp:350-352 and its siblings). It depends on
  struct layouts in headers that are not part of this model. The sizes of
  those structs are the parameter `sizeOf`.
- The single-attribute `Bind*Buffer`/`Unbind*Buffer` functions
  (VS/Graphics/VS_RenderBuffer.cpp:252-342). They feed one attribute
  pointer from the whole array. That is GL set-up with no state beyond the
  slots `Bind` already covers.
- Matrix, quaternion and vector arithmetic are not modelled: the camera
  basis, `Invert`, rotation construction and the 2D scale reset. They
  become opaque inputs (`CameraInput`, `rotZ`, `mul`).
- Float arithmetic: fuses and polygon offsets are `real`, so rounding is
  not modelled.
- `vsDisplayList` contents and `vsMaterial` internals. A display list is a
  reference and the generic list is a sequence of commands. The temporary
  lists' memory is a recorded size.
- `MAX_STACK_DEPTH` and the `vsRendererState.h`/`StateSetter` header are
  not part of this model.
  - A setter is modelled as a value plus the shadow last issued.
  - Flush issues a call iff the two differ; Force always issues one.
  - The initial shadow equals the initial value.
  - The boolean slot order is assumed to be the constructor's order.
- `MAX_DEFERRED_SAMPLES` is not part of this model. The slot table has
  whatever length it is given, and `Init` keeps that length.
- Volume handling, music playback and mixer initialisation in the sound
  system; the constructor is modelled only for its counters.
- Destructors and memory release.
- The iPhone branches: no buffer objects there, and `PlaySound` always
  returns 0. Only the desktop path is modelled.
- VS/Files/VS_File.cpp, VS/Math/VS_Spline.h and the declaration-only
  headers have no behaviour in the modelled core.
- RenderBuffer.GetPosition: returns the whole record rather than its
  position field. The field layout is in headers that are not part of this
  model. For a layout the switch handles, a negative index is excluded by
  precondition, because the source reads out of bounds there.
- `SetActiveSize` (VS/Graphics/VS_RenderBuffer.cpp:81) is defined in a
  header that is not part of this model. It is taken to set the active size
  to its argument.
- TransformStack.StartingMatrix has no contract of its own. What it puts in
  slot 0 is stated by TransformStack.Initialise.
- SoundSystem.PlaySoundDeferred and SoundSystem.CancelDeferredSounds: a
  null sample is not modelled. Storing or cancelling null leaves every
  slot's sample as it was.
- SoundSystem.Update: the mixer's channel for each fired sample is an
  input list, one entry per fired sample.
- RenderQueue.AddBatch: requires the picked stage to exist. The source
  indexes its stage array without a check.
- RenderQueueStage.EndRender: requires every batch to hold an element. The
  source dereferences each batch's first element; `FindBatch` is only
  reached from the two functions that attach one, and the model proves the
  invariant in `RenderQueueStageProperties.AddBatchKeepsValid`.

## Findings

| source | as written | input that shows it | evidently intended | confidence | as-written member | corrected member |
|---|---|---|---|---|---|---|
| VS/Graphics/VS_RenderBuffer.cpp:603-633 | `GetPositionCount` divides the capacity `m_arrayBytes` by the layout size | `SetArray` with two PC records, then `SetArray` with one PC record: the capacity stays two records, so the count is 2, and `GetPosition(1)` returns the first upload's second record | count only the positions of the last upload, `m_activeBytes / sizeof(layout)` | medium, not executed | RenderBuffer.StalePositionCount | RenderBuffer.PositionRoundTrip |
| VS/Graphics/VS_RenderBuffer.cpp:641-678 | `GetPosition`'s switch has cases for six layouts but none for PCT, so a PCT buffer falls to the default assertion and returns `vsVector3D::Zero` | `SetArray` with one PCT record, then `GetPosition(0)`: the result is the zero vector, not the record's position | a PCT case like the others, returning the record's position | high, not executed | RenderBuffer.PctPositionLost | RenderBuffer.GetActivePosition |
