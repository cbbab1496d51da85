/** Vocabulary shared by every part of the model: native handles, the kinds of
    native objects the RHI can destroy, and the effects that stand for Vulkan
    calls and failed assertions. */
module Vk {

  /** A native handle (VkBuffer, VkCommandBuffer, ...). 0 is VK_NULL_HANDLE. */
  type Handle = nat

  const Null: Handle := 0

  /** The VkObjectType values the RHI can meet. */
  datatype ObjectType =
    | InstanceObject | PhysicalDeviceObject | DeviceObject | QueueObject
    | SemaphoreObject | CommandBufferObject | FenceObject | DeviceMemoryObject
    | BufferObject | ImageObject | EventObject | QueryPoolObject
    | BufferViewObject | ImageViewObject | ShaderModuleObject | PipelineCacheObject
    | PipelineLayoutObject | RenderPassObject | PipelineObject
    | DescriptorSetLayoutObject | SamplerObject | DescriptorPoolObject
    | DescriptorSetObject | FramebufferObject | CommandPoolObject
    | SurfaceObject | SwapchainObject | DebugUtilsMessengerObject

  /** The native destroy and free entry points the RHI calls. */
  datatype DestroyCall =
    | DestroySwapchainKHR | DestroyBuffer | DestroyImage | DestroyImageView
    | DestroySampler | DestroyRenderPass | DestroyFramebuffer | DestroyCommandPool
    | DestroyShaderModule | DestroyDescriptorSetLayout | DestroyDescriptorPool
    | DestroyPipelineLayout | DestroyPipeline | DestroySemaphore | DestroyFence
    | FreeMemory | DestroyDevice | DestroyInstance | DestroySurfaceKHR

  /** The native calls whose VkResult is checked with VK_RES_CHECK. */
  datatype Command =
    | CreateCommandPool | AllocateCommandBuffers | CreateSemaphore | CreateBuffer
    | AllocateMemory | CreateShaderModule | CreateSurface | CreateSwapchain
    | GetSwapchainImages | CreatePipelineLayout | BeginCommandBuffer | GetSemaphoreCounterValue
    | BindBufferMemory | MapMemory | FlushMappedMemoryRanges

  /** The `assert` statements of the core, other than VK_RES_CHECK. */
  datatype AssertSite =
    | UnhandledObjectType(objectType: ObjectType)
    | UnhandledTaskType
    | NoSuitableMemoryType
    | UnsupportedFloatVecsize(vecsize: nat)
    | UnhandledShaderStage

  /** What the core does to the outside world, in the order it does it. A failed
      assertion is a recorded effect: a debug build stops there, a release build
      carries on with the code that follows the assertion. */
  datatype Effect =
    | Destroyed(call: DestroyCall, target: Handle)
    | AllocatedCommandBuffer(pool: Handle, commandBuffer: Handle)
    | BeganRecording(commandBuffer: Handle)
    | AllocatedMemory(memory: Handle, size: nat, memoryTypeIndex: nat)
    | FlushedMappedRange(memory: Handle, offset: nat, size: nat)
    | NamedObject(objectType: ObjectType, handle: Handle, name: string)
    | BoundMemory(buffer: Handle, memory: Handle)
    | MappedMemory(memory: Handle, size: nat)
    | WaitedIdle
    | ResultCheckFailed(command: Command)
    | AssertionFailed(site: AssertSite)

  /** The destroy call `_forge_object_destroy` and the deletion queue's flush
      issue for an object type, or None when the type falls to the `default`
      branch of their switch. */
  function DestroyCallFor(t: ObjectType): (r: Option<DestroyCall>)
    ensures r.Some? ==> ObjectTypeDestroyedBy(r.value) == t
  {
    match t
    case SwapchainObject => Some(DestroySwapchainKHR)
    case BufferObject => Some(DestroyBuffer)
    case ImageObject => Some(DestroyImage)
    case ImageViewObject => Some(DestroyImageView)
    case SamplerObject => Some(DestroySampler)
    case RenderPassObject => Some(DestroyRenderPass)
    case FramebufferObject => Some(DestroyFramebuffer)
    case CommandPoolObject => Some(DestroyCommandPool)
    case ShaderModuleObject => Some(DestroyShaderModule)
    case DescriptorSetLayoutObject => Some(DestroyDescriptorSetLayout)
    case DescriptorPoolObject => Some(DestroyDescriptorPool)
    case PipelineLayoutObject => Some(DestroyPipelineLayout)
    case PipelineObject => Some(DestroyPipeline)
    case SemaphoreObject => Some(DestroySemaphore)
    case FenceObject => Some(DestroyFence)
    case DeviceMemoryObject => Some(FreeMemory)
    case DeviceObject => Some(DestroyDevice)
    case InstanceObject => Some(DestroyInstance)
    case _ => None
  }

  /** The object type a destroy call is meant for (the inverse of DestroyCallFor). */
  function ObjectTypeDestroyedBy(c: DestroyCall): ObjectType {
    match c
    case DestroySwapchainKHR => SwapchainObject
    case DestroyBuffer => BufferObject
    case DestroyImage => ImageObject
    case DestroyImageView => ImageViewObject
    case DestroySampler => SamplerObject
    case DestroyRenderPass => RenderPassObject
    case DestroyFramebuffer => FramebufferObject
    case DestroyCommandPool => CommandPoolObject
    case DestroyShaderModule => ShaderModuleObject
    case DestroyDescriptorSetLayout => DescriptorSetLayoutObject
    case DestroyDescriptorPool => DescriptorPoolObject
    case DestroyPipelineLayout => PipelineLayoutObject
    case DestroyPipeline => PipelineObject
    case DestroySemaphore => SemaphoreObject
    case DestroyFence => FenceObject
    case FreeMemory => DeviceMemoryObject
    case DestroyDevice => DeviceObject
    case DestroyInstance => InstanceObject
    case DestroySurfaceKHR => SurfaceObject
  }

  /** The 18 object types both destroy switches handle. */
  predicate Destructible(t: ObjectType) {
    t in {SwapchainObject, BufferObject, ImageObject, ImageViewObject, SamplerObject,
          RenderPassObject, FramebufferObject, CommandPoolObject, ShaderModuleObject,
          DescriptorSetLayoutObject, DescriptorPoolObject, PipelineLayoutObject,
          PipelineObject, SemaphoreObject, FenceObject, DeviceMemoryObject,
          DeviceObject, InstanceObject}
  }

  /** The effect of destroying one object: a single destroy call for a handled
      type, a failed assertion otherwise. The device and the instance are not
      destroyed through the stored handle but through the context's own. */
  function DestroyEffect(device: Handle, instance: Handle, t: ObjectType, handle: Handle): (e: Effect)
    ensures Destructible(t) <==> e.Destroyed?
    ensures e.Destroyed? ==> ObjectTypeDestroyedBy(e.call) == t
    ensures e.Destroyed? ==> e.target == (if t == DeviceObject then device
                                          else if t == InstanceObject then instance
                                          else handle)
    ensures !e.Destroyed? ==> e == AssertionFailed(UnhandledObjectType(t))
  {
    match DestroyCallFor(t)
    case Some(c) =>
      Destroyed(c, if t == DeviceObject then device else if t == InstanceObject then instance else handle)
    case None => AssertionFailed(UnhandledObjectType(t))
  }

  /** Distinct handled object types are destroyed by distinct calls. */
  lemma DestroyCallInjective(t1: ObjectType, t2: ObjectType)
    requires DestroyCallFor(t1).Some? && DestroyCallFor(t1) == DestroyCallFor(t2)
    ensures t1 == t2
  {
    assert ObjectTypeDestroyedBy(DestroyCallFor(t1).value) == t1;
    assert ObjectTypeDestroyedBy(DestroyCallFor(t2).value) == t2;
  }

  datatype Option<+T> = None | Some(value: T)

  /** Unsigned 32-bit arithmetic wraps modulo this value. */
  const U32: nat := 0x1_0000_0000

  /** Unsigned 64-bit arithmetic wraps modulo this value. */
  const U64: nat := 0x1_0000_0000_0000_0000

  /** `m` is a whole number of `alignment`-sized steps. */
  predicate MultipleOf(m: nat, alignment: nat)
    requires alignment > 0
    decreases m
  {
    m == 0 || (m >= alignment && MultipleOf(m - alignment, alignment))
  }

  /** Alignment as the RHI's `_forge_align_up` is meant to compute it: the least
      multiple of `alignment` that is at least `size` (see AlignUpLeast). */
  function AlignUp(size: nat, alignment: nat): (r: nat)
    requires alignment > 0
    ensures MultipleOf(r, alignment) && size <= r < size + alignment
    decreases size
  {
    if size == 0 then 0
    else if size <= alignment then alignment
    else alignment + AlignUp(size - alignment, alignment)
  }

  /** No multiple of `alignment` that is at least `size` lies below AlignUp(size, alignment). */
  lemma {:induction false} AlignUpLeast(size: nat, alignment: nat, m: nat)
    requires alignment > 0 && MultipleOf(m, alignment) && m >= size
    ensures AlignUp(size, alignment) <= m
    decreases m
  {
    if size > alignment {
      AlignUpLeast(size - alignment, alignment, m - alignment);
    }
  }

  /** A size that is already aligned is left as it is. */
  lemma {:induction false} AlignUpOfMultiple(m: nat, alignment: nat)
    requires alignment > 0 && MultipleOf(m, alignment)
    ensures AlignUp(m, alignment) == m
  {
    AlignUpLeast(m, alignment, m);
  }

  /** The bytes of `mem` after `bytes` are copied over it at `offset`. */
  function Overwrite(mem: seq<bv8>, offset: nat, bytes: seq<bv8>): (r: seq<bv8>)
    requires offset + |bytes| <= |mem|
    ensures |r| == |mem|
    ensures forall i :: 0 <= i < |r| ==> r[i] == if offset <= i < offset + |bytes| then bytes[i - offset] else mem[i]
  {
    mem[..offset] + bytes + mem[offset + |bytes|..]
  }

  /** A copy placed after an earlier one leaves the earlier bytes intact. */
  lemma OverwriteKeepsEarlier(mem: seq<bv8>, o1: nat, b1: seq<bv8>, o2: nat, b2: seq<bv8>)
    requires o1 + |b1| <= o2 && o2 + |b2| <= |mem|
    ensures Overwrite(Overwrite(mem, o1, b1), o2, b2)[o1..o1 + |b1|] == b1
  {
    var r := Overwrite(Overwrite(mem, o1, b1), o2, b2);
    forall i | 0 <= i < |b1|
      ensures r[o1 + i] == b1[i]
    {
      assert Overwrite(mem, o1, b1)[o1 + i] == b1[i];
    }
  }

  /** `memcpy(dst + offset, src, |src|)`. */
  method Memcpy(dst: array<bv8>, offset: nat, src: seq<bv8>)
    requires offset + |src| <= dst.Length
    modifies dst
    ensures dst[..] == Overwrite(old(dst[..]), offset, src)
  {
    var i := 0;
    while i < |src|
      invariant 0 <= i <= |src|
      invariant forall k :: 0 <= k < dst.Length ==>
                  dst[k] == if offset <= k < offset + i then src[k - offset] else old(dst[k])
    {
      dst[offset + i] := src[i];
      i := i + 1;
    }
  }
}
