/** ForgeBuffer.cpp: a VkBuffer with its own device memory, mapped for the
    lifetime of the buffer when the memory is host-visible. */
module ForgeBuffer {
  import opened Vk
  import opened Forge
  import opened ForgeUtils

  /** VK_MEMORY_PROPERTY_HOST_VISIBLE_BIT and VK_MEMORY_PROPERTY_HOST_COHERENT_BIT. */
  const HostVisibleBit: bv32 := 0x2
  const HostCoherentBit: bv32 := 0x4

  /** `ForgeBufferDescription`; `size` is a uint32_t. */
  datatype BufferDescription = BufferDescription(name: string, size: nat, usage: bv32, memoryProperties: bv32)

  predicate HostVisible(d: BufferDescription) {
    d.memoryProperties & HostVisibleBit != 0
  }

  predicate HostCoherent(d: BufferDescription) {
    d.memoryProperties & HostCoherentBit != 0
  }

  /** What the driver answers while a buffer is initialised: the results of
      vkCreateBuffer, vkAllocateMemory, vkBindBufferMemory and vkMapMemory, the
      VkMemoryRequirements of the new buffer (`requirementSize` is a
      VkDeviceSize) and the property flags of the physical device's memory types. */
  datatype BufferDevice = BufferDevice(
    bufferCreated: bool,
    requirementSize: nat,
    memoryTypeBits: bv32,
    memoryTypes: seq<bv32>,
    memoryAllocated: bool,
    bindSucceeds: bool,
    mapSucceeds: bool)

  /** `ForgeBuffer`. `mapped` is the host view of the mapping (`mapped_ptr`). */
  class Buffer {
    var handle: Handle
    var memory: Handle
    var mapped: array?<bv8>
    var cursor: nat
    var description: BufferDescription

    /** `new ForgeBuffer()` followed by the copy of the description. */
    constructor (description: BufferDescription)
      ensures handle == Null && memory == Null && mapped == null && cursor == 0
      ensures this.description == description
    {
      handle := Null;
      memory := Null;
      mapped := null;
      cursor := 0;
      this.description := description;
    }

    /** A host-visible buffer is mapped, and the mapping covers `description.size`
        bytes, so every write the guards admit stays inside it. */
    predicate Valid()
      reads this
    {
      HostVisible(description) ==> mapped != null && description.size <= mapped.Length
    }
  }

  /** `_forge_buffer_init` returns true: the description is not empty and both
      the buffer and its memory were created. Binding and mapping are checked
      only by VK_RES_CHECK and never make it fail. */
  predicate InitSucceeds(d: BufferDescription, device: BufferDevice) {
    d.size > 0 && device.bufferCreated && device.memoryAllocated
  }

  /** vkCreateBuffer was called and succeeded. */
  predicate BufferCreated(d: BufferDescription, device: BufferDevice) {
    d.size > 0 && device.bufferCreated
  }

  /** The calls `_forge_buffer_init` makes when the driver hands out `h` for the
      buffer and `h + 1` for its memory. */
  function InitEffects(d: BufferDescription, device: BufferDevice, h: Handle): seq<Effect>
    requires |device.memoryTypes| <= MaxMemoryTypes
  {
    if d.size == 0 then []
    else if !device.bufferCreated then [ResultCheckFailed(CreateBuffer)]
    else NameEffects(d, h)
         + MemoryTypeIndex(device.memoryTypeBits, device.memoryTypes, d.memoryProperties).1
         + MemoryEffects(d, device, h, MemoryTypeIndex(device.memoryTypeBits, device.memoryTypes, d.memoryProperties).0)
  }

  /** The debug name, set only when the description has one. */
  function NameEffects(d: BufferDescription, h: Handle): seq<Effect> {
    if d.name != "" then [NamedObject(BufferObject, h, d.name)] else []
  }

  /** The calls from vkAllocateMemory on, with `index` the chosen memory type. */
  function MemoryEffects(d: BufferDescription, device: BufferDevice, h: Handle, index: nat): seq<Effect> {
    if !device.memoryAllocated then [ResultCheckFailed(AllocateMemory)]
    else [AllocatedMemory(h + 1, device.requirementSize, index), BoundMemory(h, h + 1)]
         + (if device.bindSucceeds then [] else [ResultCheckFailed(BindBufferMemory)])
         + MapEffects(d, device, h + 1)
  }

  /** vkMapMemory, called for host-visible memory only. */
  function MapEffects(d: BufferDescription, device: BufferDevice, memory: Handle): seq<Effect> {
    if !HostVisible(d) then []
    else if device.mapSucceeds then [MappedMemory(memory, device.requirementSize)]
    else [ResultCheckFailed(MapMemory)]
  }

  /** The allocation, binding and mapping steps of `_forge_buffer_init`, for the
      buffer the driver has just created (the last handle handed out). */
  method AllocateAndMap(forge: Forge, buffer: Buffer, device: BufferDevice, index: nat) returns (ok: bool)
    requires buffer.handle == forge.lastHandle
    modifies forge, buffer
    ensures ok == device.memoryAllocated
    ensures buffer.memory == if ok then old(forge.lastHandle) + 1 else old(buffer.memory)
    ensures if ok && HostVisible(buffer.description) && device.mapSucceeds
            then fresh(buffer.mapped) && buffer.mapped.Length == device.requirementSize
            else buffer.mapped == old(buffer.mapped)
    ensures buffer.handle == old(buffer.handle) && buffer.cursor == old(buffer.cursor)
    ensures buffer.description == old(buffer.description)
    ensures forge.trace == old(forge.trace) + MemoryEffects(buffer.description, device, buffer.handle, index)
    ensures forge.lastHandle == old(forge.lastHandle) + (if ok then 1 else 0)
    ensures forge.nextCheckPoint == old(forge.nextCheckPoint)
  {
    var d := buffer.description;
    if !device.memoryAllocated {
      forge.Emit(ResultCheckFailed(AllocateMemory));
      return false;
    }
    var m := forge.NewHandle();
    buffer.memory := m;
    forge.Emit(AllocatedMemory(m, device.requirementSize, index));
    forge.Emit(BoundMemory(buffer.handle, m));
    if !device.bindSucceeds {
      forge.Emit(ResultCheckFailed(BindBufferMemory));
    }
    if HostVisible(d) {
      if device.mapSucceeds {
        buffer.mapped := new bv8[device.requirementSize];
        forge.Emit(MappedMemory(m, device.requirementSize));
      } else {
        forge.Emit(ResultCheckFailed(MapMemory));
      }
    }
    return true;
  }

  /** `_forge_buffer_init`. On success the description's size becomes the
      memory requirement, truncated to the width of `description.size`. The
      `data` and `size` arguments are never read, so they are not parameters. */
  method Init(forge: Forge, buffer: Buffer, device: BufferDevice) returns (ok: bool)
    requires |device.memoryTypes| <= MaxMemoryTypes
    modifies forge, buffer
    ensures ok <==> InitSucceeds(old(buffer.description), device)
    ensures buffer.description == if ok then old(buffer.description).(size := device.requirementSize % U32)
                                  else old(buffer.description)
    ensures buffer.handle == if BufferCreated(old(buffer.description), device) then old(forge.lastHandle) + 1
                             else old(buffer.handle)
    ensures buffer.memory == if ok then old(forge.lastHandle) + 2 else old(buffer.memory)
    ensures if ok && HostVisible(buffer.description) && device.mapSucceeds
            then fresh(buffer.mapped) && buffer.mapped.Length == device.requirementSize
            else buffer.mapped == old(buffer.mapped)
    ensures ok && (device.mapSucceeds || !HostVisible(buffer.description)) ==> buffer.Valid()
    ensures buffer.cursor == old(buffer.cursor)
    ensures forge.trace == old(forge.trace) + InitEffects(old(buffer.description), device, old(forge.lastHandle) + 1)
    ensures forge.lastHandle == old(forge.lastHandle)
                                + (if ok then 2 else if BufferCreated(old(buffer.description), device) then 1 else 0)
    ensures forge.nextCheckPoint == old(forge.nextCheckPoint)
  {
    if buffer.description.size == 0 {
      return false;
    }
    if !device.bufferCreated {
      forge.Emit(ResultCheckFailed(CreateBuffer));
      return false;
    }
    ok := InitCreated(forge, buffer, device);
  }

  /** `_forge_buffer_init` from the moment vkCreateBuffer has succeeded. */
  method InitCreated(forge: Forge, buffer: Buffer, device: BufferDevice) returns (ok: bool)
    requires |device.memoryTypes| <= MaxMemoryTypes
    requires buffer.description.size > 0 && device.bufferCreated
    modifies forge, buffer
    ensures ok == device.memoryAllocated
    ensures buffer.description == if ok then old(buffer.description).(size := device.requirementSize % U32)
                                  else old(buffer.description)
    ensures buffer.handle == old(forge.lastHandle) + 1
    ensures buffer.memory == if ok then old(forge.lastHandle) + 2 else old(buffer.memory)
    ensures if ok && HostVisible(buffer.description) && device.mapSucceeds
            then fresh(buffer.mapped) && buffer.mapped.Length == device.requirementSize
            else buffer.mapped == old(buffer.mapped)
    ensures ok && (device.mapSucceeds || !HostVisible(buffer.description)) ==> buffer.Valid()
    ensures buffer.cursor == old(buffer.cursor)
    ensures forge.trace == old(forge.trace) + InitEffects(old(buffer.description), device, old(forge.lastHandle) + 1)
    ensures forge.lastHandle == old(forge.lastHandle) + (if ok then 2 else 1)
    ensures forge.nextCheckPoint == old(forge.nextCheckPoint)
  {
    var d := buffer.description;
    ghost var t0 := forge.trace;
    var h := forge.NewHandle();
    buffer.handle := h;
    var found := MemoryTypeIndex(device.memoryTypeBits, device.memoryTypes, d.memoryProperties);
    forge.trace := forge.trace + NameEffects(d, h) + found.1;
    ghost var t1 := forge.trace;
    ok := AllocateAndMap(forge, buffer, device, found.0);
    assert forge.trace == t0 + InitEffects(d, device, h) by {
      assert forge.trace == t1 + MemoryEffects(d, device, h, found.0);
      assert t1 == t0 + NameEffects(d, h) + found.1;
    }
    if ok {
      assert device.requirementSize % U32 <= device.requirementSize;
      buffer.description := d.(size := device.requirementSize % U32);
    }
  }

  /** `forge_buffer_write` skips the write: no data, nothing to write, or more
      than the buffer holds. */
  predicate WriteSkipped(data: Option<seq<bv8>>, size: nat, capacity: nat) {
    data.None? || size == 0 || size > capacity
  }

  /** The calls a write makes: memory that is host-visible but not coherent has
      the written range flushed. */
  function WriteEffects(d: BufferDescription, memory: Handle, data: Option<seq<bv8>>, size: nat, flushSucceeds: bool): (es: seq<Effect>)
    ensures es != [] ==> es[0] == FlushedMappedRange(memory, 0, size)
    ensures es != [] <==> !WriteSkipped(data, size, d.size) && HostVisible(d) && !HostCoherent(d)
  {
    if WriteSkipped(data, size, d.size) || !HostVisible(d) || HostCoherent(d) then []
    else [FlushedMappedRange(memory, 0, size)] + if flushSucceeds then [] else [ResultCheckFailed(FlushMappedMemoryRanges)]
  }

  /** `forge_buffer_write` and `_forge_buffer_write`: the first `size` bytes of
      `data` are copied to the start of the mapping. Writes always start at
      offset 0 and never touch `cursor`. `data` stands for the caller's pointer;
      the copy reads `size` bytes from it. */
  method Write(forge: Forge, buffer: Buffer, data: Option<seq<bv8>>, size: nat, flushSucceeds: bool)
    requires buffer.Valid()
    requires data.Some? ==> size <= |data.value|
    modifies forge, buffer.mapped
    ensures buffer.mapped != null ==>
              buffer.mapped[..] == if WriteSkipped(data, size, buffer.description.size) || !HostVisible(buffer.description)
                                   then old(buffer.mapped[..])
                                   else Overwrite(old(buffer.mapped[..]), 0, data.value[..size])
    ensures forge.trace == old(forge.trace) + WriteEffects(buffer.description, buffer.memory, data, size, flushSucceeds)
    ensures forge.lastHandle == old(forge.lastHandle) && forge.nextCheckPoint == old(forge.nextCheckPoint)
  {
    if WriteSkipped(data, size, buffer.description.size) {
      return;
    }
    if HostVisible(buffer.description) {
      Memcpy(buffer.mapped, 0, data.value[..size]);
      if !HostCoherent(buffer.description) {
        forge.Emit(FlushedMappedRange(buffer.memory, 0, size));
        if !flushSucceeds {
          forge.Emit(ResultCheckFailed(FlushMappedMemoryRanges));
        }
      }
    }
  }

  /** `_forge_buffer_free`: each handle that is set is released once. */
  function FreeEffects(handle: Handle, memory: Handle): (es: seq<Effect>)
    ensures Destroyed(DestroyBuffer, handle) in es <==> handle != Null
    ensures Destroyed(FreeMemory, memory) in es <==> memory != Null
    ensures |es| == (if handle != Null then 1 else 0) + (if memory != Null then 1 else 0)
  {
    (if handle != Null then [Destroyed(DestroyBuffer, handle)] else [])
    + (if memory != Null then [Destroyed(FreeMemory, memory)] else [])
  }

  /** `forge_buffer_destroy`; a null buffer is ignored. */
  method Destroy(forge: Forge, buffer: Buffer?)
    modifies forge
    ensures forge.trace == old(forge.trace) + if buffer == null then [] else FreeEffects(buffer.handle, buffer.memory)
    ensures forge.lastHandle == old(forge.lastHandle) && forge.nextCheckPoint == old(forge.nextCheckPoint)
  {
    if buffer != null {
      forge.trace := forge.trace + FreeEffects(buffer.handle, buffer.memory);
    }
  }

  /** The calls `forge_buffer_new` makes: those of the init and, when it fails,
      the release of the buffer it created (its memory was never allocated). */
  function NewEffects(d: BufferDescription, device: BufferDevice, h: Handle): seq<Effect>
    requires |device.memoryTypes| <= MaxMemoryTypes
  {
    InitEffects(d, device, h)
    + if InitSucceeds(d, device) then []
      else FreeEffects(if BufferCreated(d, device) then h else Null, Null)
  }

  /** `forge_buffer_new`: a failed init destroys what it created and yields null. */
  method New(forge: Forge, description: BufferDescription, device: BufferDevice) returns (buffer: Buffer?)
    requires |device.memoryTypes| <= MaxMemoryTypes
    modifies forge
    ensures buffer != null <==> InitSucceeds(description, device)
    ensures buffer != null ==>
              && fresh(buffer)
              && buffer.description == description.(size := device.requirementSize % U32)
              && buffer.handle == old(forge.lastHandle) + 1
              && buffer.memory == old(forge.lastHandle) + 2
              && buffer.cursor == 0
              && (buffer.mapped != null <==> HostVisible(description) && device.mapSucceeds)
              && (buffer.mapped != null ==> fresh(buffer.mapped) && buffer.mapped.Length == device.requirementSize)
              && (device.mapSucceeds || !HostVisible(description) ==> buffer.Valid())
    ensures forge.trace == old(forge.trace) + NewEffects(description, device, old(forge.lastHandle) + 1)
    ensures forge.lastHandle == old(forge.lastHandle)
                                + (if buffer != null then 2 else if BufferCreated(description, device) then 1 else 0)
    ensures forge.nextCheckPoint == old(forge.nextCheckPoint)
  {
    ghost var t0, h := forge.trace, forge.lastHandle;
    buffer := new Buffer(description);
    var ok := Init(forge, buffer, device);
    ghost var t1 := forge.trace;
    assert t1 == t0 + InitEffects(description, device, h + 1);
    if !ok {
      assert buffer.handle == if BufferCreated(description, device) then h + 1 else Null;
      assert buffer.memory == Null;
      Destroy(forge, buffer);
      assert forge.trace == t1 + FreeEffects(if BufferCreated(description, device) then h + 1 else Null, Null);
      buffer := null;
    }
  }
}
