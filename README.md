# Forge RHI resource lifecycle, modelled in Dafny

Forge is a small rendering hardware interface over Vulkan. This project models
the part of it that creates, hands out and releases Vulkan objects:

- the **deferred queue**: destroy and recycle tasks tagged with a timeline
  check point, run by a flush once the timeline reaches the tag;
- the **command-buffer manager**: a free list of command buffers, refilled by
  the deferred queue's recycle tasks;
- the **deletion queue**, the older queue of objects to destroy;
- **buffers** with their own device memory, and the **dynamic memory** bump
  allocator built on one buffer;
- the **shader**: reflection of uniform blocks and vertex inputs, and the
  pipeline-layout bindings;
- the **binding list**, which checks each resource against the shader before
  storing it;
- the **swapchain**: creation, negotiation with the surface, recreation
  after a resize, and release;
- the **utilities** of ForgeUtils.h: memory-type selection, support lookups
  and enumerator names.

Modelling conventions:

- Every native handle is a `nat`, and `Null` (0) is `VK_NULL_HANDLE`.
- The context `Forge.Forge` records every native call the code makes as an
  `Effect` appended to `trace`.
- A call that creates an object takes the next value of the `lastHandle`
  counter.
- What the driver answers comes in as a parameter: a `bool` per call, or a
  small "device" record for a sequence of calls. This covers success or
  failure, memory requirements, surface capabilities and reflected SPIR-V.
- A failed `assert` or `VK_RES_CHECK` is recorded as an `AssertionFailed` or
  `ResultCheckFailed` effect. The model then goes on the way a release build
  does, so both behaviours can be read off one trace.
- Integer widths are explicit where they matter:
  - the 32-bit `description.size` after `vkGetBufferMemoryRequirements` (`% U32`);
  - the 64-bit `next_signal` of the deletion queue;
  - the 32-bit cursor of the dynamic memory;
  - the `(uint32_t)` cast of a uniform block's declared size.

How the code recycles and allocates:

- The command-buffer manager keeps no per-buffer release tags: acquire pops
  the last entry of `available_command_buffers`, and recycling goes through
  the deferred queue.
- Dynamic memory never rotates segments: `current` stays 0 because
  `_forge_dynamic_memory_acquire_available_segment` is an empty TODO.

Where the headers and the code disagree, the model follows the code:

- The header of the command-buffer manager declares `allocated_cb`, but the
  code uses `available_command_buffers`. The code also uses
  `forge->deferred_queue` and `timeline_next_check_point`, which Forge.h does
  not declare. The model follows the code.
- `forge_shader_new` takes three parameters in the .cpp but four in the header.
  The model follows the .cpp, and no description name is ever set.
- The binding list reads `description.images`, a member the shader header
  does not declare. The model gives the shader an `images` array of image
  layouts that nothing in the shader code fills; it stays value-initialised.

Code behaviour the model keeps, even though the authors may not have intended it:

- `_forge_shader_pipeline_layout_init` is never called by `_forge_shader_init`.
  The bindings it builds are never passed to `vkCreatePipelineLayout`.
- `_forge_shader_free` is empty, so a destroyed shader leaks its two shader modules.
- `_forge_swapchain_free` destroys neither the in-flight semaphores nor the images.
- `_forge_swapchain_update` destroys the old swapchain before it reads the new
  images back. If that read fails, the new handle stays and the extent is not
  updated.
- `_forge_buffer_init` ignores its `data` and `size` arguments.
- `forge_deletion_queue_destroy` destroys the semaphore even when it is null.

## Model

| member | source | states |
|---|---|---|
| Vk.DestroyCallFor | RHI/src/ForgeDeletionQueue.cpp:64-87 | the destroy call chosen for an object type destroys objects of exactly that type |
| Vk.DestroyCallInjective | RHI/src/ForgeDeletionQueue.cpp:64-83 | no two object types share a destroy call |
| Vk.DestroyEffect | RHI/src/ForgeDeferredQueue.cpp:12-36 | a destructible type yields its own vkDestroy*/vkFreeMemory call on the handle (on the device or instance for those two types); any other type yields the default branch's failed assertion |
| Vk.AlignUp | RHI/src/ForgeDynamicMemory.cpp:72 | the aligned size is a multiple of the alignment, at least the size and less than size plus alignment |
| Vk.AlignUpLeast | RHI/src/ForgeDynamicMemory.cpp:72 | the aligned size is the least multiple of the alignment that is at least the size |
| Vk.AlignUpOfMultiple | RHI/src/ForgeDynamicMemory.cpp:79 | aligning a multiple of the alignment leaves it unchanged |
| Vk.Overwrite | RHI/src/ForgeDynamicMemory.cpp:84-85 | a memcpy into a mapped range changes exactly the target bytes and keeps the length |
| Vk.OverwriteKeepsEarlier | RHI/src/ForgeDynamicMemory.cpp:79-85 | a later copy into a disjoint, higher range keeps the bytes of an earlier copy |
| Vk.Memcpy | RHI/src/ForgeBuffer.cpp:72 | the byte array after the copy is the overwrite of the old contents at the offset |
| Forge.Forge.constructor | RHI/include/Forge.h:28-64 | a fresh context with an empty trace, an empty deferred queue and a manager with no pool and no free buffers |
| Forge.DeferredQueue.constructor | RHI/src/ForgeDeferredQueue.cpp:48-52 | a new deferred queue holds no task |
| Forge.CommandBufferManager.constructor | RHI/src/ForgeCommandBufferManager.cpp:83 | a new manager has no pool and no free command buffer |
| ForgeDeferredQueue.DestroyObject | RHI/src/ForgeDeferredQueue.cpp:10-37 | destroying an object issues exactly its type's destroy call, or the assertion of the default branch |
| ForgeDeferredQueue.RecycleCommandBuffer | RHI/src/ForgeDeferredQueue.cpp:40-45 | the command buffer is appended to the context manager's free list, and the pool and the trace are unchanged |
| ForgeDeferredQueue.DeferObjectDestroy | RHI/include/ForgeDeferredQueue.h:54-63 | the queue gains exactly one destroy task at its end, tagged with the next check point |
| ForgeDeferredQueue.DeferCommandBufferRecycle | RHI/src/ForgeDeferredQueue.cpp:64-71 | the queue gains exactly one recycle task at its end, tagged with the next check point |
| ForgeDeferredQueue.RunTask | RHI/src/ForgeDeferredQueue.cpp:83-91 | running a task issues its effects, and only a recycle task extends the free list |
| ForgeDeferredQueue.Flush | RHI/src/ForgeDeferredQueue.cpp:74-100 | a failed read of the timeline counter trips its result check first; the queue keeps exactly the tasks not yet due, in order; the due ones run in order, and their command buffers join the free list |
| ForgeDeferredQueue.FlushConcat | RHI/src/ForgeDeferredQueue.cpp:80-99 | flushing two queued runs is flushing each of them: order is preserved on both sides |
| ForgeDeferredQueue.PendingMembers | RHI/src/ForgeDeferredQueue.cpp:80-99 | a task stays queued iff it was queued and is not due |
| ForgeDeferredQueue.RetiredMembers | RHI/src/ForgeDeferredQueue.cpp:80-97 | a task runs iff it was queued and is due |
| ForgeDeferredQueue.FlushPartition | RHI/src/ForgeDeferredQueue.cpp:80-99 | every task is either run or kept, none lost and none duplicated (multisets) |
| ForgeDeferredQueue.ImmediateFlushRunsAll | RHI/src/ForgeDeferredQueue.cpp:81 | an immediate flush runs every task, in order, and leaves the queue empty |
| ForgeDeferredQueue.ImmediateFlushTwice | RHI/src/ForgeDeferredQueue.cpp:74-100 | a second immediate flush issues no call and recycles nothing |
| ForgeDeferredQueue.NothingDue | RHI/src/ForgeDeferredQueue.cpp:81 | a timed flush below every tag runs nothing and keeps the queue whole |
| ForgeDeferredQueue.RecycledPartition | RHI/src/ForgeDeferredQueue.cpp:83-91 | the recycled buffers of the run and of the kept tasks together are all the queued recycled buffers |
| ForgeDeferredQueue.RecycledMembers | RHI/src/ForgeDeferredQueue.cpp:81-91 | a command buffer is among those a set of tasks recycles iff one of those tasks is a recycle task carrying it |
| ForgeDeferredQueue.RecycledIffDue | RHI/src/ForgeDeferredQueue.cpp:81-91 | a command buffer is recycled by a flush iff a recycle task for it is queued and due |
| ForgeDeferredQueue.RunEffectsCount | RHI/src/ForgeDeferredQueue.cpp:83-91 | every run task issues one effect except recycle tasks, which issue none |
| ForgeCommandBufferManager.ExclusiveInitially | RHI/src/ForgeCommandBufferManager.cpp:80-92 | an empty manager and queue satisfy the ownership invariant: each live buffer is owned once, and none is newer than the last handle |
| ForgeCommandBufferManager.ReuseKeepsExclusive | RHI/src/ForgeCommandBufferManager.cpp:53-57 | popping the last free buffer into a recycle task keeps the invariant |
| ForgeCommandBufferManager.FreshKeepsExclusive | RHI/src/ForgeCommandBufferManager.cpp:58-67 | a freshly allocated buffer put into a recycle task keeps the invariant |
| ForgeCommandBufferManager.NullKeepsExclusive | RHI/src/ForgeCommandBufferManager.cpp:65-66 | a failed allocation queues a null recycle and keeps the invariant |
| ForgeCommandBufferManager.FlushKeepsExclusive | RHI/src/ForgeDeferredQueue.cpp:74-100 | moving due recycle tasks to the free list keeps the invariant |
| ForgeCommandBufferManager.DestroyKeepsExclusive | RHI/include/ForgeDeferredQueue.h:54-63 | queueing a destroy task keeps the invariant |
| ForgeCommandBufferManager.InFlightNotReissued | RHI/src/ForgeCommandBufferManager.cpp:53-75 | a buffer awaiting recycle is not on the free list, so it cannot be acquired again before its check point |
| ForgeCommandBufferManager.BeginEffects | RHI/src/ForgeCommandBufferManager.cpp:10-18 | recording begins iff asked, and the result check fails iff begin was asked and failed |
| ForgeCommandBufferManager.Init | RHI/src/ForgeCommandBufferManager.cpp:20-37 | succeeds iff the pool is created; on success the pool is the fresh handle, otherwise nothing changes and the result check failure is recorded |
| ForgeCommandBufferManager.Free | RHI/src/ForgeCommandBufferManager.cpp:39-46 | a set pool is handed to the deferred queue for destruction, and nothing is destroyed at once |
| ForgeCommandBufferManager.Destroy | RHI/src/ForgeCommandBufferManager.cpp:94-102 | a null manager is ignored; otherwise its pool is deferred for destruction |
| ForgeCommandBufferManager.New | RHI/src/ForgeCommandBufferManager.cpp:80-92 | a manager comes back iff the pool is created, and it owns that pool |
| ForgeCommandBufferManager.Acquire | RHI/src/ForgeCommandBufferManager.cpp:48-78 | hands out the last free buffer, else a newly allocated one, else VK_NULL_HANDLE; optional begin; always queues its recycle; keeps the ownership invariant |
| ForgeCommandBufferManager.FlushContext | RHI/src/ForgeDeferredQueue.cpp:74-100 | flushing the context's deferred queue, including the counter read's result check, keeps the ownership invariant |
| ForgeCommandBufferManager.AcquireTwice | RHI/src/ForgeCommandBufferManager.cpp:48-78 | two acquisitions without a flush in between never hand out the same live buffer |
| ForgeDeletionQueue.DeletionQueue.constructor | RHI/src/ForgeDeletionQueue.cpp:42 | a new queue has no entries, signal 0 and no semaphore |
| ForgeDeletionQueue.DeleteEffectsAt | RHI/src/ForgeDeletionQueue.cpp:61-88 | the i-th destroyed entry issues the i-th effect, its type's destroy call or the failed default assertion, and nothing else is issued |
| ForgeDeletionQueue.Init | RHI/src/ForgeDeletionQueue.cpp:9-31 | succeeds iff the timeline semaphore is created; on success the queue holds the fresh handle |
| ForgeDeletionQueue.Destroy | RHI/src/ForgeDeletionQueue.cpp:99-107 | a non-null queue destroys its semaphore, null or not; a null queue does nothing |
| ForgeDeletionQueue.New | RHI/src/ForgeDeletionQueue.cpp:39-52 | a queue comes back iff the semaphore is created, with no entries and next signal 1; otherwise it is destroyed |
| ForgeDeletionQueue.Push | RHI/include/ForgeDeletionQueue.h:27-35 | the queue gains exactly one entry at its end, tagged with the next check point |
| ForgeDeletionQueue.Flush | RHI/src/ForgeDeletionQueue.cpp:54-97 | keeps exactly the unexpired entries in order, destroys the expired ones in order, and advances the 64-bit next signal by one |
| ForgeDeletionQueue.FlushPartition | RHI/src/ForgeDeletionQueue.cpp:61-95 | every entry is destroyed or kept, none lost and none twice |
| ForgeDeletionQueue.FlushMembers | RHI/src/ForgeDeletionQueue.cpp:61-95 | an entry is destroyed iff it is expired and kept iff it is not |
| ForgeDeletionQueue.FlushConcat | RHI/src/ForgeDeletionQueue.cpp:61-95 | entries are destroyed in the order they were pushed |
| ForgeDeletionQueue.ImmediateFlushDeletesAll | RHI/src/ForgeDeletionQueue.cpp:62 | an immediate flush destroys every entry and keeps none |
| ForgeDeletionQueue.ThreeCheckPoints | RHI/src/ForgeDeletionQueue.cpp:54-97 | entries tagged 1, 2 and 3 flushed at timeline value 2 destroy the first two and keep the third |
| ForgeBuffer.Buffer.constructor | RHI/src/ForgeBuffer.cpp:108-109 | a new buffer has no handle, no memory and no mapping, and holds the given description |
| ForgeBuffer.AllocateAndMap | RHI/src/ForgeBuffer.cpp:37-60 | memory is allocated and bound, and mapped over its full size only when host-visible; each failing result check is recorded |
| ForgeBuffer.Init | RHI/src/ForgeBuffer.cpp:7-65 | succeeds iff the size is non-zero, the buffer is created and memory is allocated; on success the size becomes the 32-bit truncated requirement and a host-visible mapping covers it |
| ForgeBuffer.InitCreated | RHI/src/ForgeBuffer.cpp:32-65 | from a created buffer: the debug name when named, then memory as in AllocateAndMap |
| ForgeBuffer.WriteEffects | RHI/src/ForgeBuffer.cpp:70-84 | a flush of the written range is issued iff the write is not skipped and the memory is host-visible but not coherent |
| ForgeBuffer.Write | RHI/src/ForgeBuffer.cpp:121-128 | no data, size 0 or a size beyond the buffer skips the write; otherwise the first size bytes of the mapping become the data, followed by a flush for non-coherent memory |
| ForgeBuffer.FreeEffects | RHI/src/ForgeBuffer.cpp:91-103 | the buffer is destroyed iff its handle is set and the memory freed iff it is set, each once |
| ForgeBuffer.Destroy | RHI/src/ForgeBuffer.cpp:130-138 | a null buffer is ignored; otherwise exactly the set handles are released |
| ForgeBuffer.New | RHI/src/ForgeBuffer.cpp:105-118 | a buffer comes back iff its initialisation succeeds; a failed one is released and null comes back; the handle counter grows by 2, 1 or 0 as buffer and memory, only the buffer, or nothing was created |
| ForgeDynamicMemory.DynamicMemory.constructor | RHI/src/ForgeDynamicMemory.cpp:55 | a new allocator has no buffer and all cursors and release signals are 0 |
| ForgeDynamicMemory.DynamicDescription | RHI/src/ForgeDynamicMemory.cpp:18-22 | the backing buffer is host-visible and coherent, with the requested size and usage |
| ForgeDynamicMemory.Init | RHI/src/ForgeDynamicMemory.cpp:15-41 | succeeds iff the backing buffer is created; then current is 0, the segment size is a third of the size and every cursor and signal is 0; the handle counter grows by the handles the buffer creation took |
| ForgeDynamicMemory.Destroy | RHI/src/ForgeDynamicMemory.cpp:96-104 | the backing buffer, when there is one, is released |
| ForgeDynamicMemory.New | RHI/src/ForgeDynamicMemory.cpp:52-64 | memory comes back iff the backing buffer is created, holding that buffer with zeroed cursors and signals; the handle counter grows by the handles the buffer creation took |
| ForgeDynamicMemory.Write | RHI/src/ForgeDynamicMemory.cpp:66-88 | as written: returns the aligned segment start plus the cursor, advances the 32-bit cursor by the aligned size, and copies the aligned size from the data |
| ForgeDynamicMemory.WriteCorrected | RHI/src/ForgeDynamicMemory.cpp:66-88 | the same reservation and offset, and exactly the caller's size bytes copied |
| ForgeDynamicMemory.Flush | RHI/src/ForgeDynamicMemory.cpp:90-94 | flushing changes nothing |
| ForgeDynamicMemory.WriteReadsPastData | RHI/src/ForgeDynamicMemory.cpp:72-85 | for a size that is not a multiple of the alignment, the write as written copies more bytes than the caller passed |
| ForgeDynamicMemory.WriteReadsPastDataExample | RHI/src/ForgeDynamicMemory.cpp:72-85 | one byte written at alignment 256 copies 256 bytes |
| ForgeDynamicMemory.ReservationCoversPayload | RHI/src/ForgeDynamicMemory.cpp:72 | the reserved range holds the payload and wastes less than one alignment |
| ForgeDynamicMemory.ConsecutiveWrites | RHI/src/ForgeDynamicMemory.cpp:79-82 | the next write into the segment starts right after the previous reservation, unless the cursor wraps |
| ForgeDynamicMemory.WarningIffPastSegment | RHI/src/ForgeDynamicMemory.cpp:72-82 | without a 32-bit wrap, the out-of-memory warning fires iff the reserved range in segment 0 ends past the segment |
| ForgeDynamicMemory.FirstSegmentOffset | RHI/src/ForgeDynamicMemory.cpp:79-80 | in segment 0 the returned offset is the cursor |
| ForgeDynamicMemory.NextWriteKeepsBytes | RHI/src/ForgeDynamicMemory.cpp:79-85 | the bytes of one write survive the next write into the same segment |
| ForgeUtils.FindMemoryTypeFrom | RHI/include/ForgeUtils.h:256-260 | the first suitable index at or after i, or none when no later index is suitable |
| ForgeUtils.FindMemoryType | RHI/include/ForgeUtils.h:251-264 | some index is returned iff a suitable memory type exists, and it is the least suitable one |
| ForgeUtils.MemoryTypeIndex | RHI/include/ForgeUtils.h:251-264 | a suitable index with no failed assertion, or index 0 with the assertion exactly when no type is suitable |
| ForgeUtils.NoPropertiesFirstAllowed | RHI/include/ForgeUtils.h:257 | with no required property, the first type the filter admits is chosen |
| ForgeUtils.Supported | RHI/include/ForgeUtils.h:106-114 | the early-return scan answers true iff the list holds the query |
| ForgeUtils.InstanceExtensionSupport | RHI/include/ForgeUtils.h:93-115 | true iff the instance lists the extension |
| ForgeUtils.DeviceExtensionSupport | RHI/include/ForgeUtils.h:117-139 | true iff the physical device lists the extension |
| ForgeUtils.PresentModeSupport | RHI/include/ForgeUtils.h:141-163 | true iff the surface lists the present mode |
| ForgeUtils.SurfaceFormatSupport | RHI/include/ForgeUtils.h:165-187 | true iff one listed entry matches both format and colour space |
| ForgeUtils.SurfaceFormatToStr | RHI/include/ForgeUtils.h:189-201 | a name iff the format is R8G8B8A8_UNORM, the empty string otherwise |
| ForgeUtils.PresentModeToStr | RHI/include/ForgeUtils.h:203-221 | a name iff the mode is one of the six handled modes |
| ForgeUtils.PresentModeNamesDistinct | RHI/include/ForgeUtils.h:203-221 | distinct handled modes have distinct names |
| ForgeUtils.ResultToStr | RHI/include/ForgeUtils.h:16-74 | the empty string iff the code has no case in the switch |
| ForgeUtils.ApiVersionToStr | RHI/include/ForgeUtils.h:76-91 | "1.0" to "1.3" for exactly the four API versions, the empty string for every other value |
| ForgeShader.SpirvTypeVkFormat | RHI/src/ForgeShader.cpp:15-43 | a float vector of 1 to 4 components gets the float format of that width; a float of any other width fails the assertion; everything else is R8G8B8A8_UNORM |
| ForgeShader.FloatFormatsDistinct | RHI/src/ForgeShader.cpp:15-43 | float vectors of different widths get different formats |
| ForgeShader.ShaderStageVkStage | RHI/src/ForgeShader.cpp:45-58 | vertex and fragment map to their stage bits, and the count entry fails the assertion |
| ForgeShader.StageFlags | RHI/src/ForgeShader.cpp:128-134 | the vertex or fragment bit of the mask is set iff that stage is recorded |
| ForgeShader.StageFlagsAdd | RHI/src/ForgeShader.cpp:128 | adding a stage to the record ORs its bit into the mask, as the compound OR-assignment does |
| ForgeShader.MergeUniforms | RHI/src/ForgeShader.cpp:111-136 | the loop keeps all eight uniform slots |
| ForgeShader.MergeUniformsConcat | RHI/src/ForgeShader.cpp:119-135 | processing two runs of reflected uniforms in turn is processing their concatenation |
| ForgeShader.MergeUntouched | RHI/src/ForgeShader.cpp:111-136 | a slot no reflected uniform uses is unchanged |
| ForgeShader.MergeNamed | RHI/src/ForgeShader.cpp:126-130 | a named slot keeps its name and size and gains only the loop's stage, and only when some uniform uses it |
| ForgeShader.MergeFirstUse | RHI/src/ForgeShader.cpp:132-134 | an unnamed slot takes the first user's name and 32-bit truncated size, and only the loop's stage |
| ForgeShader.VertexThenFragment | RHI/src/ForgeShader.cpp:158-159 | a uniform the vertex stage names first keeps its vertex name and size, and its mask is vertex, or vertex and fragment iff the fragment stage uses it too |
| ForgeShader.PlaceAttributes | RHI/src/ForgeShader.cpp:146-156 | the input loop keeps all sixteen attribute slots |
| ForgeShader.FormatEffectsCount | RHI/src/ForgeShader.cpp:146-156 | the format mapping fails one assertion per unsupported float input and no other |
| ForgeShader.LastInputWins | RHI/src/ForgeShader.cpp:146-156 | the last input bound to a slot decides its attribute, with offset 0 |
| ForgeShader.AttributeUntouched | RHI/src/ForgeShader.cpp:146-156 | a slot no input is bound to is unchanged |
| ForgeShader.BindingsSound | RHI/src/ForgeShader.cpp:72-87 | every pushed binding belongs to a uniform slot of positive size: one dynamic uniform buffer with the slot's stage mask |
| ForgeShader.BindingsIncreasing | RHI/src/ForgeShader.cpp:72-87 | the bindings come in strictly increasing slot order |
| ForgeShader.BindingsComplete | RHI/src/ForgeShader.cpp:72-87 | every slot of positive size gets a binding |
| ForgeShader.LayoutBindings | RHI/src/ForgeShader.cpp:72-87 | the loop pushes exactly the bindings of the slots of positive size, in order |
| ForgeShader.PipelineLayoutInit | RHI/src/ForgeShader.cpp:60-103 | builds those bindings, and succeeds iff the layout is created, returning the fresh layout handle; failure records the result check |
| ForgeShader.ShaderInitStopsAtFirstFailure | RHI/src/ForgeShader.cpp:196-215 | a failed vertex module stops initialisation before the fragment module |
| ForgeShader.Shader.constructor | RHI/src/ForgeShader.cpp:226 | a new shader has no modules and empty attribute, uniform and image slots |
| ForgeShader.ModuleInit | RHI/src/ForgeShader.cpp:164-194 | succeeds iff the stage compiles and its module is created, storing the fresh module handle in the stage's slot |
| ForgeShader.UniformBlocksInit | RHI/src/ForgeShader.cpp:111-136 | the uniform slots become the merge of the reflected uniforms for the stage |
| ForgeShader.InputAttributesInit | RHI/src/ForgeShader.cpp:146-156 | the attribute slots become the placement of the inputs, with the format assertions recorded |
| ForgeShader.DescriptionInit | RHI/src/ForgeShader.cpp:138-162 | the vertex inputs are placed, then the vertex and fragment uniforms are merged in that order; it always succeeds |
| ForgeShader.ShaderInit | RHI/src/ForgeShader.cpp:196-215 | succeeds iff both modules are built; the description is filled only then; one handle per module created |
| ForgeShader.ShaderNew | RHI/src/ForgeShader.cpp:223-236 | a shader comes back iff initialisation succeeds; it holds both modules, the vertex inputs placed by binding and the uniform blocks merged from the vertex then the fragment stage, with its image slots value-initialised; one handle per module created |
| ForgeBindingList.ImageUsageMatters | RHI/src/ForgeBindingList.cpp:89-104 | a storage slot refuses a sampled-only image, and a sampled slot refuses a storage-only image |
| ForgeBindingList.UniformStoreConsistent | RHI/src/ForgeBindingList.cpp:11-30 | storing an accepted block keeps every bound block the size its slot declares |
| ForgeBindingList.VertexBufferStoreConsistent | RHI/src/ForgeBindingList.cpp:32-57 | storing an accepted vertex buffer keeps every bound vertex buffer acceptable for its slot |
| ForgeBindingList.ImageStoreConsistent | RHI/src/ForgeBindingList.cpp:73-111 | storing an accepted image keeps every bound image acceptable for its slot |
| ForgeBindingList.BindingList.constructor | RHI/include/ForgeBindingList.h:15-21 | a new list binds nothing |
| ForgeBindingList.UniformWrite | RHI/src/ForgeBindingList.cpp:11-30 | stores the block iff the slot exists and the size matches the shader's block; otherwise nothing changes; consistency is kept |
| ForgeBindingList.VertexBufferBind | RHI/src/ForgeBindingList.cpp:32-57 | binds iff the slot is in range, the shader has a named input there and the buffer has vertex usage; consistency with the shader is kept |
| ForgeBindingList.IndexBufferBind | RHI/src/ForgeBindingList.cpp:59-71 | binds iff the buffer has index usage; consistency with the shader is kept |
| ForgeBindingList.ImageBind | RHI/src/ForgeBindingList.cpp:73-111 | binds iff the slot is in range, the view type matches and the image has the storage or sampled usage the slot needs; consistency is kept |
| ForgeSwapchain.NegotiatedImageCount | RHI/src/ForgeSwapchain.cpp:46-60 | none iff fewer images than the minimum were asked for; otherwise the request clamped to a non-zero maximum |
| ForgeSwapchain.ImageCountSettles | RHI/src/ForgeSwapchain.cpp:46-60 | negotiating an already negotiated count changes nothing |
| ForgeSwapchain.NegotiatedPresentMode | RHI/src/ForgeSwapchain.cpp:62-78 | the request iff the surface supports it (or it is FIFO), FIFO otherwise |
| ForgeSwapchain.PresentModeSettles | RHI/src/ForgeSwapchain.cpp:62-78 | negotiating the present mode twice is negotiating it once |
| ForgeSwapchain.RetrievedImages | RHI/src/ForgeSwapchain.cpp:128-129 | the images vector has the requested size and starts with the images read back |
| ForgeSwapchain.RetrievedCount | RHI/src/ForgeSwapchain.cpp:129 | the count written back is the number of images returned and never exceeds the capacity |
| ForgeSwapchain.Swapchain.constructor | RHI/src/ForgeSwapchain.cpp:243-244 | a new swapchain has no handle, surface, images or semaphores, and holds the description |
| ForgeSwapchain.SurfaceInit | RHI/src/ForgeSwapchain.cpp:15-38 | succeeds iff a window is given, the platform is Win32 and the surface is created; the surface gets its debug name |
| ForgeSwapchain.Negotiate | RHI/src/ForgeSwapchain.cpp:46-97 | succeeds iff the image count is acceptable and the format is supported with SRGB_NONLINEAR; count and mode are rewritten in place |
| ForgeSwapchain.CreationInit | RHI/src/ForgeSwapchain.cpp:99-139 | succeeds iff the swapchain is created and its images are read back; the handle is set once created |
| ForgeSwapchain.ImagesQuery | RHI/src/ForgeSwapchain.cpp:128-139 | sizes the images to the count, reads them back and writes back the count |
| ForgeSwapchain.SemaphoresInit | RHI/src/ForgeSwapchain.cpp:141-162 | per frame, image-available then rendering-done; succeeds iff all four are created, and the first failure stops the loop |
| ForgeSwapchain.InitHandles | RHI/src/ForgeSwapchain.cpp:9-167 | a full initialisation takes the surface, the swapchain and two semaphores per frame in flight; a failed surface takes none |
| ForgeSwapchain.Init | RHI/src/ForgeSwapchain.cpp:9-167 | succeeds iff every phase does; the trace stops at the first failure; on success the negotiated description, the images and the semaphore handles are stored; the handle counter grows by `InitHandles` |
| ForgeSwapchain.FreeEffects | RHI/src/ForgeSwapchain.cpp:224-238 | destroys the swapchain iff set and the surface iff set, and never a semaphore |
| ForgeSwapchain.Destroy | RHI/src/ForgeSwapchain.cpp:289-297 | a null swapchain is ignored; otherwise the swapchain and surface are destroyed and the images cleared |
| ForgeSwapchain.New | RHI/src/ForgeSwapchain.cpp:240-253 | a swapchain comes back iff initialisation succeeds, with its surface, handle, negotiated description, images and both semaphores of every frame in flight; a failed one is released; the handle counter grows by `InitHandles` |
| ForgeSwapchain.FailedNewReleases | RHI/src/ForgeSwapchain.cpp:240-253 | a failed creation destroys the surface and swapchain it made, but leaks any semaphores it created |
| ForgeSwapchain.UpdateSettles | RHI/src/ForgeSwapchain.cpp:266-274 | once the stored extent is the current one, no update is needed |
| ForgeSwapchain.Recreate | RHI/src/ForgeSwapchain.cpp:169-222 | a new swapchain replaces the old one, which is destroyed after a device wait (null or not), and the images are read back again |
| ForgeSwapchain.Update | RHI/src/ForgeSwapchain.cpp:255-287 | recreates only for a non-null swapchain whose surface extent is non-zero and differs; true and the new extent are stored only when recreation succeeds; the surface, colour space and every other description field are kept, and one handle is taken per new swapchain |

## Left out

- Logging (`log_error`, `log_warning`, `log_info`) is output only and is not modelled.
- GLSL compilation and SPIR-V reflection are not modelled. What they produce
  comes in as parameters: whether each stage compiles, the reflected inputs
  and uniforms, and declared struct sizes.
- The SPIR-V words kept in the shader are left out.
- The result checks of the surface enumerations are not recorded. This covers
  capabilities, present modes, formats and extension queries: their answers
  are parameters.
- The result check of `_forge_debug_obj_name_set` is not recorded: naming is
  recorded as one effect.
- `vkGetBufferMemoryRequirements` and `vkGetPhysicalDeviceMemoryProperties` are
  not recorded as effects; their answers are parameters.
- `_forge_align_up` is not defined in the files modelled. `Vk.AlignUp` gives it
  the usual round-up-to-a-multiple meaning.
- `forge_deferred_queue_destroy` only frees memory. Tasks still queued are
  dropped without running, which the model shows by having no destroy call.
- `forge_shader_destroy` releases nothing because `_forge_shader_free` is
  empty; the model has no member for it.
- `_forge_shader_pipeline_init`, the pipeline description, the pipeline and
  descriptor-set-layout members of the shader are left out: the pipeline
  function is an empty stub.
- The swapchain's `image_index` and `fence` members are left out: no code modelled uses them.
- The non-Win32 platform branch is a flag on the device record.
- The descriptor-set manager, frames, render passes and images are not part of
  this model; only the view type and usage of an image are. The same goes for
  the duplicate ForgeDefered files, the Forge context's own creation and
  destruction, and the playground.
- `_forge_dynamic_memory_acquire_available_segment` is an empty TODO. Segment
  rotation and `release_signal` updates never happen in the code.
- Concurrency with the GPU is left out. The timeline value is a parameter of
  each flush, and nothing in the modelled code advances
  `timeline_next_check_point`.
- ForgeShader.ShaderNew: reflection must report bindings in range
  (`ReflectionInRange`). The source asserts this and then writes out of bounds
  in a release build, which the model does not follow.
- ForgeShader.UniformBlocksInit and ForgeShader.InputAttributesInit: likewise,
  they require in-range bindings where the source asserts them.
- ForgeBuffer.Write: requires `Valid()`, so every host-visible buffer has a
  mapping that covers its size. A failed vkMapMemory only trips its result
  check (RHI/src/ForgeBuffer.cpp:56-60), so `forge_buffer_new` can still hand
  out a host-visible buffer with a null `mapped_ptr`, and a write to it would
  `memcpy` through null (RHI/src/ForgeBuffer.cpp:72). That undefined
  behaviour, and a size beyond the mapping, are not modelled.
- ForgeDynamicMemory.Write: requires the mapping to hold the whole write and
  the data to hold the aligned size. The source warns on overflow and then
  writes past the segment, and it reads past the caller's data (see Findings).
  Those out-of-bounds accesses are not modelled.
- ForgeUtils.ResultToStr: states only which codes get a name, not that the
  names differ.

## Findings

| source | as written | input that shows it | evidently intended | confidence | as-written member | corrected member |
|---|---|---|---|---|---|---|
| RHI/src/ForgeDynamicMemory.cpp:72-85 | `size` is overwritten by its aligned value before `memcpy(dst, data, size)`, so the copy reads the aligned size from `data` | size 1, alignment 256: 256 bytes are read from a 1-byte payload | reserve the aligned size but copy only the caller's `size` bytes | high; not executed | ForgeDynamicMemory.WriteReadsPastDataExample | ForgeDynamicMemory.WriteCorrected |
