/** The shared context of the RHI (`struct Forge`) together with the two pieces
    of state its resource lifecycle is built on: the deferred task queue and the
    command-buffer manager. They live in one module because each mutates the
    other: running a recycle task pushes onto the manager's free list, and
    acquiring a command buffer pushes a task onto the deferred queue. */
module Forge {
  import opened Vk

  /** One entry of `ForgeDeferredQueue::deferred_tasks`: the task type and the
      member of the union it selects, with the timeline value it waits for. */
  datatype DeferredTask =
    | ObjectDestroy(executionSignal: nat, handle: Handle, pool: Handle, objectType: ObjectType)
    | CommandBufferRecycle(executionSignal: nat, commandBuffer: Handle)
      /** RECYCLE_DESCRIPTOR_SET: declared, never pushed, not handled by a flush. */
    | DescriptorSetRecycle(executionSignal: nat)

  class DeferredQueue {
    var deferredTasks: seq<DeferredTask>

    constructor ()
      ensures deferredTasks == []
    {
      deferredTasks := [];
    }
  }

  class CommandBufferManager {
    var pool: Handle
    var availableCommandBuffers: seq<Handle>

    /** `new ForgeCommandBufferManager()`: a value-initialised manager. */
    constructor ()
      ensures pool == Null && availableCommandBuffers == []
    {
      pool := Null;
      availableCommandBuffers := [];
    }
  }

  /** The context every operation receives. `trace` records the native calls
      and failed assertions in order; `lastHandle` stands for the driver: every
      handle it hands out is fresh, one above the previous one. */
  class Forge {
    const device: Handle
    const instance: Handle
    const deferredQueue: DeferredQueue
    const commandBufferManager: CommandBufferManager
    /** `timeline_next_check_point`: the value the next submission signals. */
    var nextCheckPoint: nat
    var trace: seq<Effect>
    var lastHandle: nat

    constructor (device: Handle, instance: Handle, nextCheckPoint: nat)
      ensures this.device == device && this.instance == instance
      ensures this.nextCheckPoint == nextCheckPoint
      ensures fresh(deferredQueue) && fresh(commandBufferManager)
      ensures deferredQueue.deferredTasks == []
      ensures commandBufferManager.pool == Null && commandBufferManager.availableCommandBuffers == []
      ensures trace == [] && lastHandle == if device < instance then instance else device
    {
      this.device := device;
      this.instance := instance;
      this.nextCheckPoint := nextCheckPoint;
      deferredQueue := new DeferredQueue();
      commandBufferManager := new CommandBufferManager();
      trace := [];
      lastHandle := if device < instance then instance else device;
    }

    /** A native object creation that succeeded: the driver hands out a new handle. */
    method NewHandle() returns (h: Handle)
      modifies this
      ensures h == old(lastHandle) + 1 && lastHandle == h
      ensures trace == old(trace) && nextCheckPoint == old(nextCheckPoint)
    {
      lastHandle := lastHandle + 1;
      h := lastHandle;
    }

    /** Records one effect at the end of the trace. */
    method Emit(e: Effect)
      modifies this
      ensures trace == old(trace) + [e]
      ensures lastHandle == old(lastHandle) && nextCheckPoint == old(nextCheckPoint)
    {
      trace := trace + [e];
    }
  }
}
