/** ForgeCommandBufferManager.cpp: one command pool and a free list of command
    buffers. A buffer handed out schedules its own recycle task, so it returns
    to the free list once the GPU has passed the timeline value it was handed
    out at. */
module ForgeCommandBufferManager {
  import opened Vk
  import opened Forge
  import opened ForgeDeferredQueue

  // ---------------------------------------------------------------------------
  // The exclusivity invariant: a command buffer is free, or waiting in exactly
  // one recycle task, never both and never twice.

  /** Every command buffer either on the free list or carried by a queued
      recycle task, counted with multiplicity. */
  function Owned(available: seq<Handle>, tasks: seq<DeferredTask>): multiset<Handle> {
    multiset(available) + multiset(Recycled(tasks))
  }

  /** No non-null command buffer is owned twice, and every owned handle was
      handed out by the driver already (it is at most `lastHandle`). */
  predicate ExclusiveHandles(available: seq<Handle>, tasks: seq<DeferredTask>, lastHandle: nat) {
    var owned := Owned(available, tasks);
    (forall h :: h in owned ==> h <= lastHandle) &&
    (forall h :: h in owned && h != Null ==> owned[h] == 1)
  }

  /** The invariant over the context's own manager and deferred queue. */
  ghost predicate Exclusive(forge: Forge)
    reads forge, forge.commandBufferManager, forge.deferredQueue
  {
    ExclusiveHandles(forge.commandBufferManager.availableCommandBuffers, forge.deferredQueue.deferredTasks, forge.lastHandle)
  }

  /** A new context owns no command buffer. */
  lemma ExclusiveInitially(lastHandle: nat)
    ensures ExclusiveHandles([], [], lastHandle)
  {
    assert Owned([], []) == multiset{};
  }

  /** Taking the last free buffer and queueing its recycle task keeps ownership
      as it was. */
  lemma ReuseKeepsExclusive(available: seq<Handle>, tasks: seq<DeferredTask>, lastHandle: nat, signal: nat)
    requires |available| > 0 && ExclusiveHandles(available, tasks, lastHandle)
    ensures var cb := available[|available| - 1];
            ExclusiveHandles(available[..|available| - 1], tasks + [CommandBufferRecycle(signal, cb)], lastHandle)
  {
    var cb := available[|available| - 1];
    var rest := available[..|available| - 1];
    assert available == rest + [cb];
    RecycledStep(tasks, CommandBufferRecycle(signal, cb));
    assert Recycled([CommandBufferRecycle(signal, cb)]) == [cb];
    assert Owned(rest, tasks + [CommandBufferRecycle(signal, cb)]) == Owned(available, tasks);
  }

  /** A buffer fresh from the driver is owned by nobody yet, so queueing its
      recycle task keeps ownership exclusive. */
  lemma FreshKeepsExclusive(available: seq<Handle>, tasks: seq<DeferredTask>, lastHandle: nat, signal: nat)
    requires ExclusiveHandles(available, tasks, lastHandle)
    ensures ExclusiveHandles(available, tasks + [CommandBufferRecycle(signal, lastHandle + 1)], lastHandle + 1)
  {
    var cb := lastHandle + 1;
    RecycledStep(tasks, CommandBufferRecycle(signal, cb));
    assert Recycled([CommandBufferRecycle(signal, cb)]) == [cb];
    var owned := Owned(available, tasks);
    assert cb !in owned;
    assert Owned(available, tasks + [CommandBufferRecycle(signal, cb)]) == owned + multiset{cb};
  }

  /** A failed allocation queues a recycle task for VK_NULL_HANDLE, which the
      invariant does not count. */
  lemma NullKeepsExclusive(available: seq<Handle>, tasks: seq<DeferredTask>, lastHandle: nat, signal: nat)
    requires ExclusiveHandles(available, tasks, lastHandle)
    ensures ExclusiveHandles(available, tasks + [CommandBufferRecycle(signal, Null)], lastHandle)
  {
    RecycledStep(tasks, CommandBufferRecycle(signal, Null));
    assert Recycled([CommandBufferRecycle(signal, Null)]) == [Null];
    assert Owned(available, tasks + [CommandBufferRecycle(signal, Null)]) == Owned(available, tasks) + multiset{Null};
  }

  /** A flush moves the buffers of the due recycle tasks to the free list and
      keeps the others queued: ownership does not change. */
  lemma FlushKeepsExclusive(available: seq<Handle>, tasks: seq<DeferredTask>, lastHandle: nat, value: nat, immediate: bool)
    requires ExclusiveHandles(available, tasks, lastHandle)
    ensures ExclusiveHandles(available + Recycled(Retired(tasks, value, immediate)), Pending(tasks, value, immediate), lastHandle)
  {
    RecycledPartition(tasks, value, immediate);
    assert Owned(available + Recycled(Retired(tasks, value, immediate)), Pending(tasks, value, immediate)) == Owned(available, tasks);
  }

  /** Queueing an object destruction does not touch command-buffer ownership. */
  lemma DestroyKeepsExclusive(available: seq<Handle>, tasks: seq<DeferredTask>, lastHandle: nat,
                              signal: nat, handle: Handle, pool: Handle, t: ObjectType)
    requires ExclusiveHandles(available, tasks, lastHandle)
    ensures ExclusiveHandles(available, tasks + [ObjectDestroy(signal, handle, pool, t)], lastHandle)
  {
    RecycledStep(tasks, ObjectDestroy(signal, handle, pool, t));
    assert Recycled([ObjectDestroy(signal, handle, pool, t)]) == [];
    assert Owned(available, tasks + [ObjectDestroy(signal, handle, pool, t)]) == Owned(available, tasks);
  }

  /** The point of the invariant: a command buffer whose recycle task is still
      queued is not on the free list, so no later acquire hands it out again
      before a flush has seen its timeline value. */
  lemma InFlightNotReissued(available: seq<Handle>, tasks: seq<DeferredTask>, lastHandle: nat, cb: Handle)
    requires ExclusiveHandles(available, tasks, lastHandle)
    requires cb != Null && cb in Recycled(tasks)
    ensures cb !in available
  {
    var owned := Owned(available, tasks);
    assert owned[cb] == multiset(available)[cb] + multiset(Recycled(tasks))[cb];
    assert cb in multiset(Recycled(tasks));
  }

  // ---------------------------------------------------------------------------
  // The operations.

  /** The effects of `_forge_command_buffer_begin` when `begin` is set. */
  function BeginEffects(commandBuffer: Handle, begin: bool, beginSucceeds: bool): (es: seq<Effect>)
    ensures begin <==> BeganRecording(commandBuffer) in es
    ensures ResultCheckFailed(BeginCommandBuffer) in es <==> begin && !beginSucceeds
  {
    if !begin then []
    else [BeganRecording(commandBuffer)] + (if beginSucceeds then [] else [ResultCheckFailed(BeginCommandBuffer)])
  }

  /** `_forge_command_buffer_manager_init`: `poolCreated` is the outcome of
      vkCreateCommandPool. On failure the pool stays as it was. */
  method Init(forge: Forge, manager: CommandBufferManager, poolCreated: bool) returns (ok: bool)
    modifies forge, manager
    ensures ok == poolCreated
    ensures ok ==> manager.pool == old(forge.lastHandle) + 1 && forge.lastHandle == manager.pool && forge.trace == old(forge.trace)
    ensures !ok ==> manager.pool == old(manager.pool) && forge.lastHandle == old(forge.lastHandle)
                    && forge.trace == old(forge.trace) + [ResultCheckFailed(CreateCommandPool)]
    ensures manager.availableCommandBuffers == old(manager.availableCommandBuffers)
    ensures forge.nextCheckPoint == old(forge.nextCheckPoint)
  {
    if poolCreated {
      var pool := forge.NewHandle();
      manager.pool := pool;
      ok := true;
    } else {
      forge.Emit(ResultCheckFailed(CreateCommandPool));
      ok := false;
    }
  }

  /** `_forge_command_buffer_manager_free`: the pool is destroyed through the
      context's deferred queue. The free list is left as it is. */
  method Free(forge: Forge, manager: CommandBufferManager)
    modifies forge.deferredQueue
    ensures forge.deferredQueue.deferredTasks
         == old(forge.deferredQueue.deferredTasks)
            + (if manager.pool != Null then [ObjectDestroy(forge.nextCheckPoint, manager.pool, Null, CommandPoolObject)] else [])
  {
    if manager.pool != Null {
      DeferObjectDestroy(forge, forge.deferredQueue, CommandPoolObject, manager.pool);
    }
  }

  /** `forge_command_buffer_manager_destroy`; a null manager is ignored. */
  method Destroy(forge: Forge, manager: CommandBufferManager?)
    modifies forge.deferredQueue
    ensures forge.deferredQueue.deferredTasks
         == old(forge.deferredQueue.deferredTasks)
            + (if manager != null && manager.pool != Null
               then [ObjectDestroy(forge.nextCheckPoint, manager.pool, Null, CommandPoolObject)] else [])
  {
    if manager != null {
      Free(forge, manager);
    }
  }

  /** `forge_command_buffer_manager_new`: null when the pool cannot be created. */
  method New(forge: Forge, poolCreated: bool) returns (manager: CommandBufferManager?)
    modifies forge, forge.deferredQueue
    ensures poolCreated <==> manager != null
    ensures manager != null ==> fresh(manager) && manager.pool == old(forge.lastHandle) + 1
                                && manager.availableCommandBuffers == []
                                && forge.lastHandle == manager.pool && forge.trace == old(forge.trace)
    ensures manager == null ==> forge.lastHandle == old(forge.lastHandle)
                                && forge.trace == old(forge.trace) + [ResultCheckFailed(CreateCommandPool)]
    ensures forge.deferredQueue.deferredTasks == old(forge.deferredQueue.deferredTasks)
    ensures forge.nextCheckPoint == old(forge.nextCheckPoint)
  {
    var m := new CommandBufferManager();
    var ok := Init(forge, m, poolCreated);
    if !ok {
      Destroy(forge, m);
      manager := null;
    } else {
      manager := m;
    }
  }

  /** `forge_command_buffer_acquire`: the last free buffer of `manager`, or a
      new one from its pool. `allocationSucceeds` and `beginSucceeds` are the
      outcomes of vkAllocateCommandBuffers and vkBeginCommandBuffer; a failed
      allocation leaves VK_NULL_HANDLE. The recycle task goes to the context's
      deferred queue whichever manager the buffer came from. */
  method Acquire(forge: Forge, manager: CommandBufferManager, begin: bool, allocationSucceeds: bool, beginSucceeds: bool)
    returns (commandBuffer: Handle)
    modifies forge, manager, forge.deferredQueue
    ensures var free := old(manager.availableCommandBuffers);
            if |free| > 0 then
              commandBuffer == free[|free| - 1] && manager.availableCommandBuffers == free[..|free| - 1]
              && forge.lastHandle == old(forge.lastHandle)
              && forge.trace == old(forge.trace) + BeginEffects(commandBuffer, begin, beginSucceeds)
            else if allocationSucceeds then
              commandBuffer == old(forge.lastHandle) + 1 && forge.lastHandle == commandBuffer
              && manager.availableCommandBuffers == free
              && forge.trace == old(forge.trace) + [AllocatedCommandBuffer(manager.pool, commandBuffer)]
                                + BeginEffects(commandBuffer, begin, beginSucceeds)
            else
              commandBuffer == Null && forge.lastHandle == old(forge.lastHandle)
              && manager.availableCommandBuffers == free
              && forge.trace == old(forge.trace) + [ResultCheckFailed(AllocateCommandBuffers)]
                                + BeginEffects(commandBuffer, begin, beginSucceeds)
    ensures forge.deferredQueue.deferredTasks
         == old(forge.deferredQueue.deferredTasks) + [CommandBufferRecycle(forge.nextCheckPoint, commandBuffer)]
    ensures manager.pool == old(manager.pool) && forge.nextCheckPoint == old(forge.nextCheckPoint)
    ensures manager == forge.commandBufferManager && old(Exclusive(forge)) ==> Exclusive(forge)
  {
    ghost var tasks0 := forge.deferredQueue.deferredTasks;
    ghost var free0 := manager.availableCommandBuffers;
    ghost var last0 := forge.lastHandle;
    var n := |manager.availableCommandBuffers|;
    if n > 0 {
      commandBuffer := manager.availableCommandBuffers[n - 1];
      manager.availableCommandBuffers := manager.availableCommandBuffers[..n - 1];
    } else if allocationSucceeds {
      commandBuffer := forge.NewHandle();
      forge.Emit(AllocatedCommandBuffer(manager.pool, commandBuffer));
    } else {
      commandBuffer := Null;
      forge.Emit(ResultCheckFailed(AllocateCommandBuffers));
    }
    ghost var trace1 := forge.trace;
    if begin {
      forge.Emit(BeganRecording(commandBuffer));
      if !beginSucceeds {
        forge.Emit(ResultCheckFailed(BeginCommandBuffer));
      }
    }
    assert forge.trace == trace1 + BeginEffects(commandBuffer, begin, beginSucceeds);
    DeferCommandBufferRecycle(forge, forge.deferredQueue, commandBuffer);
    if manager == forge.commandBufferManager && ExclusiveHandles(free0, tasks0, last0) {
      if n > 0 {
        ReuseKeepsExclusive(free0, tasks0, last0, forge.nextCheckPoint);
      } else if allocationSucceeds {
        FreshKeepsExclusive(free0, tasks0, last0, forge.nextCheckPoint);
      } else {
        NullKeepsExclusive(free0, tasks0, last0, forge.nextCheckPoint);
      }
    }
  }

  /** A flush of the context's deferred queue keeps the invariant. */
  method FlushContext(forge: Forge, value: nat, readSucceeds: bool, immediate: bool)
    modifies forge, forge.deferredQueue, forge.commandBufferManager
    ensures forge.deferredQueue.deferredTasks == Pending(old(forge.deferredQueue.deferredTasks), value, immediate)
    ensures forge.commandBufferManager.availableCommandBuffers
         == old(forge.commandBufferManager.availableCommandBuffers)
            + Recycled(Retired(old(forge.deferredQueue.deferredTasks), value, immediate))
    ensures forge.trace == old(forge.trace)
              + (if readSucceeds then [] else [ResultCheckFailed(GetSemaphoreCounterValue)])
              + RunEffects(forge.device, forge.instance, Retired(old(forge.deferredQueue.deferredTasks), value, immediate))
    ensures forge.lastHandle == old(forge.lastHandle) && forge.nextCheckPoint == old(forge.nextCheckPoint)
    ensures old(Exclusive(forge)) ==> Exclusive(forge)
  {
    ghost var tasks0 := forge.deferredQueue.deferredTasks;
    ghost var free0 := forge.commandBufferManager.availableCommandBuffers;
    if ExclusiveHandles(free0, tasks0, forge.lastHandle) {
      FlushKeepsExclusive(free0, tasks0, forge.lastHandle, value, immediate);
    }
    Flush(forge, forge.deferredQueue, value, readSucceeds, immediate);
  }

  /** Two buffers acquired from the context's manager without a flush in
      between are distinct, unless an allocation failed. */
  method AcquireTwice(forge: Forge, allocation1: bool, allocation2: bool) returns (first: Handle, second: Handle)
    requires Exclusive(forge)
    modifies forge, forge.commandBufferManager, forge.deferredQueue
    ensures first != Null && second != Null ==> first != second
    ensures Exclusive(forge)
  {
    first := Acquire(forge, forge.commandBufferManager, false, allocation1, true);
    assert first in Recycled(forge.deferredQueue.deferredTasks) by {
      RecycledStep(old(forge.deferredQueue.deferredTasks), CommandBufferRecycle(forge.nextCheckPoint, first));
      assert Recycled([CommandBufferRecycle(forge.nextCheckPoint, first)]) == [first];
    }
    if first != Null {
      InFlightNotReissued(forge.commandBufferManager.availableCommandBuffers, forge.deferredQueue.deferredTasks,
                          forge.lastHandle, first);
      assert first <= forge.lastHandle by {
        assert first in Owned(forge.commandBufferManager.availableCommandBuffers, forge.deferredQueue.deferredTasks);
      }
    }
    second := Acquire(forge, forge.commandBufferManager, false, allocation2, true);
  }
}
