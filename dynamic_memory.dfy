/** ForgeDynamicMemory.cpp: a bump allocator over one host-visible, coherent
    buffer split into three segments. Only the bump within the current segment
    is implemented: `current` never changes, and `release_signal` is written
    but never read. */
module ForgeDynamicMemory {
  import opened Vk
  import opened Forge
  import opened ForgeUtils
  import opened ForgeBuffer

  /** FORGE_DYNAMIC_MEMORY_MAX_SEGMENTTS. */
  const Segments: nat := 3

  /** `ForgeDynamicMemory`. The two fixed-size arrays are part of the struct,
      so their identity never changes; the 32-bit counters are held as `nat`
      and every update wraps them explicitly. */
  class DynamicMemory {
    var buffer: Buffer?
    var segmentSize: nat
    const cursor: array<nat>
    const releaseSignal: array<nat>
    var current: nat

    /** `new ForgeDynamicMemory()`: every member value-initialised. */
    constructor ()
      ensures buffer == null && segmentSize == 0 && current == 0
      ensures fresh(cursor) && fresh(releaseSignal) && Valid()
      ensures cursor[..] == [0, 0, 0] && releaseSignal[..] == [0, 0, 0]
    {
      buffer := null;
      segmentSize := 0;
      cursor := new nat[Segments](_ => 0);
      releaseSignal := new nat[Segments](_ => 0);
      current := 0;
      new;
      assert cursor[..] == [0, 0, 0];
      assert releaseSignal[..] == [0, 0, 0];
    }

    /** The arrays have one slot per segment, `current` names one of them, and
        the struct's own arrays are not part of the buffer's mapping. */
    predicate Valid()
      reads this, buffer
    {
      && cursor.Length == Segments && releaseSignal.Length == Segments
      && cursor != releaseSignal && current < Segments
      && (buffer != null && buffer.mapped != null ==>
            cursor as object != buffer.mapped && releaseSignal as object != buffer.mapped)
    }
  }

  /** The description `_froge_dynamic_memory_init` builds for its buffer. */
  function DynamicDescription(size: nat, usage: bv32): (d: BufferDescription)
    ensures HostVisible(d) && HostCoherent(d) && d.size == size && d.usage == usage
  {
    BufferDescription("Dynamic memory", size, usage, HostVisibleBit | HostCoherentBit)
  }

  /** The state `_froge_dynamic_memory_init` leaves on success: a backing
      buffer with the dynamic description and the driver's size, mapped iff
      the map succeeded, segment 0 current, a third of the size per segment,
      and every cursor and release signal 0. */
  predicate Initialised(memory: DynamicMemory, size: nat, usage: bv32, device: BufferDevice)
    reads memory, memory.buffer, memory.cursor, memory.releaseSignal
  {
    && memory.Valid() && memory.buffer != null
    && memory.buffer.description == DynamicDescription(size, usage).(size := device.requirementSize % U32)
    && (memory.buffer.mapped != null <==> device.mapSucceeds)
    && (memory.buffer.mapped != null ==> memory.buffer.mapped.Length == device.requirementSize)
    && memory.current == 0 && memory.segmentSize == size / Segments
    && (forall i :: 0 <= i < Segments ==> memory.cursor[i] == 0 && memory.releaseSignal[i] == 0)
  }

  /** `_froge_dynamic_memory_init`. The buffer is created without initial data
      (the buffer's init never reads it). On failure the members other than
      `buffer` keep their values. */
  method Init(forge: Forge, memory: DynamicMemory, size: nat, usage: bv32, device: BufferDevice) returns (ok: bool)
    requires memory.Valid()
    requires |device.memoryTypes| <= MaxMemoryTypes
    modifies forge, memory, memory.cursor, memory.releaseSignal
    ensures memory.Valid()
    ensures ok <==> InitSucceeds(DynamicDescription(size, usage), device)
    ensures ok <==> memory.buffer != null
    ensures ok ==> fresh(memory.buffer) && (memory.buffer.mapped != null ==> fresh(memory.buffer.mapped))
    ensures ok ==> Initialised(memory, size, usage, device)
    ensures !ok ==> memory.current == old(memory.current) && memory.segmentSize == old(memory.segmentSize)
    ensures !ok ==> memory.cursor[..] == old(memory.cursor[..]) && memory.releaseSignal[..] == old(memory.releaseSignal[..])
    ensures forge.trace == old(forge.trace) + NewEffects(DynamicDescription(size, usage), device, old(forge.lastHandle) + 1)
    ensures forge.lastHandle == old(forge.lastHandle)
                                + (if ok then 2 else if BufferCreated(DynamicDescription(size, usage), device) then 1 else 0)
    ensures forge.nextCheckPoint == old(forge.nextCheckPoint)
  {
    memory.buffer := ForgeBuffer.New(forge, DynamicDescription(size, usage), device);
    if memory.buffer == null {
      return false;
    }
    memory.current := 0;
    memory.segmentSize := size / Segments;
    for i := 0 to Segments
      modifies memory.cursor, memory.releaseSignal
      invariant forall k :: 0 <= k < i ==> memory.cursor[k] == 0 && memory.releaseSignal[k] == 0
    {
      memory.cursor[i] := 0;
      memory.releaseSignal[i] := 0;
    }
    return true;
  }

  /** `forge_dynamic_memory_destroy` with `_forge_dynamic_memory_free`: the
      buffer, if there is one, is destroyed. */
  method Destroy(forge: Forge, memory: DynamicMemory?)
    modifies forge
    ensures if memory == null || memory.buffer == null then forge.trace == old(forge.trace)
            else forge.trace == old(forge.trace) + FreeEffects(memory.buffer.handle, memory.buffer.memory)
    ensures forge.lastHandle == old(forge.lastHandle) && forge.nextCheckPoint == old(forge.nextCheckPoint)
  {
    if memory != null && memory.buffer != null {
      ForgeBuffer.Destroy(forge, memory.buffer);
    }
  }

  /** `forge_dynamic_memory_new`: null when the backing buffer cannot be created. */
  method New(forge: Forge, size: nat, usage: bv32, device: BufferDevice) returns (memory: DynamicMemory?)
    requires |device.memoryTypes| <= MaxMemoryTypes
    modifies forge
    ensures memory != null <==> InitSucceeds(DynamicDescription(size, usage), device)
    ensures memory != null ==> fresh(memory) && fresh(memory.buffer) && Initialised(memory, size, usage, device)
    ensures forge.trace == old(forge.trace) + NewEffects(DynamicDescription(size, usage), device, old(forge.lastHandle) + 1)
    ensures forge.lastHandle == old(forge.lastHandle)
                                + (if memory != null then 2 else if BufferCreated(DynamicDescription(size, usage), device) then 1 else 0)
    ensures forge.nextCheckPoint == old(forge.nextCheckPoint)
  {
    ghost var t0, h0 := forge.trace, forge.lastHandle;
    memory := new DynamicMemory();
    assert forge.trace == t0 && forge.lastHandle == h0;
    var ok := Init(forge, memory, size, usage, device);
    if !ok {
      Destroy(forge, memory);
      return null;
    }
  }

  /** The size a write reserves: `size` rounded up to the alignment and stored
      back into the 32-bit `size`. */
  function AlignedSize(size: nat, alignment: nat): nat
    requires alignment > 0
  {
    AlignUp(size, alignment) % U32
  }

  /** The offset a write returns: the aligned start of the current segment
      (the product is 32-bit) plus the segment's cursor. */
  function WriteOffset(current: nat, segmentSize: nat, cursor: nat, alignment: nat): nat
    requires alignment > 0
  {
    AlignUp(current * segmentSize % U32, alignment) + cursor
  }

  /** The overflow test of `forge_dynamic_memory_write`, in 32-bit arithmetic.
      It only leads to a logged warning: the write goes ahead regardless. */
  predicate RunsOutOfMemory(cursor: nat, alignedSize: nat, segmentSize: nat) {
    (cursor + alignedSize) % U32 > segmentSize
  }

  /** `forge_dynamic_memory_write` as written: it reserves the aligned size and
      copies that many bytes from `data` to the returned offset. `data` stands
      for the caller's pointer, so the precondition on its length is what the
      copy reads from it (see WriteReadsPastData). The buffer's mapping must
      cover the bytes written; the source does not check this. */
  method Write(memory: DynamicMemory, size: nat, alignment: nat, data: seq<bv8>) returns (offset: nat)
    requires memory.Valid() && alignment > 0
    requires memory.buffer != null && memory.buffer.mapped != null
    requires AlignedSize(size, alignment) <= |data|
    requires WriteOffset(memory.current, memory.segmentSize, memory.cursor[memory.current], alignment)
             + AlignedSize(size, alignment) <= memory.buffer.mapped.Length
    modifies memory.cursor, memory.buffer.mapped
    ensures offset == WriteOffset(memory.current, memory.segmentSize, old(memory.cursor[memory.current]), alignment)
    ensures memory.cursor[..] == old(memory.cursor[..])[memory.current :=
              (old(memory.cursor[memory.current]) + AlignedSize(size, alignment)) % U32]
    ensures memory.releaseSignal[..] == old(memory.releaseSignal[..])
    ensures memory.buffer.mapped[..] == Overwrite(old(memory.buffer.mapped[..]), offset, data[..AlignedSize(size, alignment)])
  {
    var buffer := memory.buffer;
    var current := memory.current;
    var alignedSize := AlignedSize(size, alignment);
    offset := WriteOffset(current, memory.segmentSize, memory.cursor[current], alignment);
    memory.cursor[current] := (memory.cursor[current] + alignedSize) % U32;
    Memcpy(buffer.mapped, offset, data[..alignedSize]);
  }

  /** `forge_dynamic_memory_write` with the copy limited to the caller's `size`
      bytes; the reservation, the returned offset and the cursor are as in Write,
      and the padding up to the aligned size is left as it was. */
  method WriteCorrected(memory: DynamicMemory, size: nat, alignment: nat, data: seq<bv8>) returns (offset: nat)
    requires memory.Valid() && alignment > 0
    requires memory.buffer != null && memory.buffer.mapped != null
    requires size <= |data| && AlignUp(size, alignment) < U32
    requires WriteOffset(memory.current, memory.segmentSize, memory.cursor[memory.current], alignment)
             + AlignedSize(size, alignment) <= memory.buffer.mapped.Length
    modifies memory.cursor, memory.buffer.mapped
    ensures offset == WriteOffset(memory.current, memory.segmentSize, old(memory.cursor[memory.current]), alignment)
    ensures memory.cursor[..] == old(memory.cursor[..])[memory.current :=
              (old(memory.cursor[memory.current]) + AlignedSize(size, alignment)) % U32]
    ensures memory.releaseSignal[..] == old(memory.releaseSignal[..])
    ensures memory.buffer.mapped[..] == Overwrite(old(memory.buffer.mapped[..]), offset, data[..size])
  {
    var buffer := memory.buffer;
    var current := memory.current;
    var alignedSize := AlignedSize(size, alignment);
    ReservationCoversPayload(size, alignment);
    offset := WriteOffset(current, memory.segmentSize, memory.cursor[current], alignment);
    memory.cursor[current] := (memory.cursor[current] + alignedSize) % U32;
    Memcpy(buffer.mapped, offset, data[..size]);
  }

  /** `forge_dynamic_memory_flush` is empty: it changes nothing. */
  method Flush(forge: Forge, memory: DynamicMemory)
    ensures unchanged(forge, memory, memory.cursor, memory.releaseSignal)
  {
  }

  /** As written, a write whose size is not a multiple of the alignment copies
      more bytes than the caller asked to write: the copy reads past the end of
      a payload of exactly `size` bytes. */
  lemma WriteReadsPastData(size: nat, alignment: nat)
    requires alignment > 0 && AlignUp(size, alignment) < U32
    requires !MultipleOf(size, alignment)
    ensures AlignedSize(size, alignment) > size
  {
  }

  /** One concrete case: one byte written at alignment 256 reads 256 bytes. */
  lemma WriteReadsPastDataExample()
    ensures AlignedSize(1, 256) == 256
  {
  }

  /** In the corrected write the payload fits in the reserved range. */
  lemma ReservationCoversPayload(size: nat, alignment: nat)
    requires alignment > 0 && AlignUp(size, alignment) < U32
    ensures size <= AlignedSize(size, alignment) < size + alignment
  {
  }

  /** Consecutive writes into the same segment: unless the 32-bit cursor
      wraps, the second offset is the first offset plus the first aligned
      size, so the two reserved ranges touch and do not overlap. */
  lemma ConsecutiveWrites(current: nat, segmentSize: nat, cursor: nat, size: nat, alignment: nat)
    requires alignment > 0
    requires cursor + AlignedSize(size, alignment) < U32
    ensures WriteOffset(current, segmentSize, (cursor + AlignedSize(size, alignment)) % U32, alignment)
            == WriteOffset(current, segmentSize, cursor, alignment) + AlignedSize(size, alignment)
  {
  }

  /** `current` is always 0, so a write's offset is the cursor itself. */
  lemma FirstSegmentOffset(segmentSize: nat, cursor: nat, alignment: nat)
    requires alignment > 0
    ensures WriteOffset(0, segmentSize, cursor, alignment) == cursor
  {
  }

  /** Unless the 32-bit cursor wraps, the out-of-memory warning fires exactly
      when the reserved range of a write in segment 0 ends past the segment. */
  lemma WarningIffPastSegment(segmentSize: nat, cursor: nat, size: nat, alignment: nat)
    requires alignment > 0 && cursor + AlignedSize(size, alignment) < U32
    ensures RunsOutOfMemory(cursor, AlignedSize(size, alignment), segmentSize)
        <==> WriteOffset(0, segmentSize, cursor, alignment) + AlignedSize(size, alignment) > segmentSize
  {
    FirstSegmentOffset(segmentSize, cursor, alignment);
  }

  /** The bytes of a write survive the next write into the same segment, as
      long as the cursor does not wrap. */
  lemma NextWriteKeepsBytes(mem: seq<bv8>, segmentSize: nat, cursor: nat, size: nat, alignment: nat, first: seq<bv8>, second: seq<bv8>)
    requires alignment > 0
    requires |first| == AlignedSize(size, alignment) && cursor + |first| < U32
    requires cursor + |first| + |second| <= |mem|
    ensures var o1 := WriteOffset(0, segmentSize, cursor, alignment);
            var o2 := WriteOffset(0, segmentSize, (cursor + |first|) % U32, alignment);
            Overwrite(Overwrite(mem, o1, first), o2, second)[o1..o1 + |first|] == first
  {
    FirstSegmentOffset(segmentSize, cursor, alignment);
    FirstSegmentOffset(segmentSize, (cursor + |first|) % U32, alignment);
    OverwriteKeepsEarlier(mem, cursor, first, cursor + |first|, second);
  }
}
