/** ForgeDeferredQueue.cpp and the push template of ForgeDeferredQueue.h: tasks
    tagged with the timeline value they wait for, run and removed by a flush
    once the timeline has reached that value (or unconditionally). */
module ForgeDeferredQueue {
  import opened Vk
  import opened Forge

  /** The test of the flush lambda: a task runs when the flush is immediate or
      the timeline value has reached the task's signal. */
  predicate Due(task: DeferredTask, value: nat, immediate: bool) {
    immediate || value >= task.executionSignal
  }

  /** The tasks a flush keeps, in their original order (what remove_if and
      erase leave behind). */
  function Pending(tasks: seq<DeferredTask>, value: nat, immediate: bool): seq<DeferredTask>
    decreases |tasks|
  {
    if tasks == [] then []
    else
      var last := tasks[|tasks| - 1];
      Pending(tasks[..|tasks| - 1], value, immediate) + (if Due(last, value, immediate) then [] else [last])
  }

  /** The tasks a flush runs, in the order the lambda meets them. */
  function Retired(tasks: seq<DeferredTask>, value: nat, immediate: bool): seq<DeferredTask>
    decreases |tasks|
  {
    if tasks == [] then []
    else
      var last := tasks[|tasks| - 1];
      Retired(tasks[..|tasks| - 1], value, immediate) + (if Due(last, value, immediate) then [last] else [])
  }

  /** The native calls and failed assertions of running one task. Recycling a
      command buffer calls nothing native. */
  function TaskEffects(device: Handle, instance: Handle, task: DeferredTask): seq<Effect> {
    match task
    case ObjectDestroy(_, h, _, t) => [DestroyEffect(device, instance, t, h)]
    case CommandBufferRecycle(_, _) => []
    case DescriptorSetRecycle(_) => [AssertionFailed(UnhandledTaskType)]
  }

  /** The effects of running the given tasks one after the other. */
  function RunEffects(device: Handle, instance: Handle, tasks: seq<DeferredTask>): seq<Effect>
    decreases |tasks|
  {
    if tasks == [] then []
    else RunEffects(device, instance, tasks[..|tasks| - 1]) + TaskEffects(device, instance, tasks[|tasks| - 1])
  }

  /** The command buffers carried by the recycle tasks among `tasks`, in order. */
  function Recycled(tasks: seq<DeferredTask>): seq<Handle>
    decreases |tasks|
  {
    if tasks == [] then []
    else
      var last := tasks[|tasks| - 1];
      Recycled(tasks[..|tasks| - 1]) + (if last.CommandBufferRecycle? then [last.commandBuffer] else [])
  }

  /** `_forge_object_destroy`: one destroy call, or a failed assertion for an
      object type the switch does not handle. The pool is not used. */
  method DestroyObject(forge: Forge, handle: Handle, pool: Handle, objectType: ObjectType)
    modifies forge
    ensures forge.trace == old(forge.trace) + [DestroyEffect(forge.device, forge.instance, objectType, handle)]
    ensures forge.lastHandle == old(forge.lastHandle) && forge.nextCheckPoint == old(forge.nextCheckPoint)
  {
    var e := DestroyEffect(forge.device, forge.instance, objectType, handle);
    forge.Emit(e);
  }

  /** `_forge_command_buffer_recycle`: the buffer goes back on the free list of
      the context's command-buffer manager. */
  method RecycleCommandBuffer(forge: Forge, commandBuffer: Handle)
    modifies forge.commandBufferManager
    ensures forge.commandBufferManager.availableCommandBuffers
         == old(forge.commandBufferManager.availableCommandBuffers) + [commandBuffer]
    ensures forge.commandBufferManager.pool == old(forge.commandBufferManager.pool)
  {
    var manager := forge.commandBufferManager;
    manager.availableCommandBuffers := manager.availableCommandBuffers + [commandBuffer];
  }

  /** `forge_deferred_object_destroy<T>`: `objectType` is `_vk_object_type<T>()`. */
  method DeferObjectDestroy(forge: Forge, queue: DeferredQueue, objectType: ObjectType, handle: Handle, pool: Handle := Null)
    modifies queue
    ensures queue.deferredTasks == old(queue.deferredTasks) + [ObjectDestroy(forge.nextCheckPoint, handle, pool, objectType)]
  {
    var task := ObjectDestroy(forge.nextCheckPoint, handle, pool, objectType);
    queue.deferredTasks := queue.deferredTasks + [task];
  }

  /** `forge_deferred_command_buffer_recycle`. */
  method DeferCommandBufferRecycle(forge: Forge, queue: DeferredQueue, commandBuffer: Handle)
    modifies queue
    ensures queue.deferredTasks == old(queue.deferredTasks) + [CommandBufferRecycle(forge.nextCheckPoint, commandBuffer)]
  {
    var task := CommandBufferRecycle(forge.nextCheckPoint, commandBuffer);
    queue.deferredTasks := queue.deferredTasks + [task];
  }

  /** The body of the flush lambda for a task that is due. */
  method RunTask(forge: Forge, task: DeferredTask)
    modifies forge, forge.commandBufferManager
    ensures forge.trace == old(forge.trace) + TaskEffects(forge.device, forge.instance, task)
    ensures forge.commandBufferManager.availableCommandBuffers
         == old(forge.commandBufferManager.availableCommandBuffers) + Recycled([task])
    ensures forge.commandBufferManager.pool == old(forge.commandBufferManager.pool)
    ensures forge.lastHandle == old(forge.lastHandle) && forge.nextCheckPoint == old(forge.nextCheckPoint)
  {
    assert Recycled([task]) == Recycled([]) + (if task.CommandBufferRecycle? then [task.commandBuffer] else []);
    match task
    case ObjectDestroy(_, h, p, t) => DestroyObject(forge, h, p, t);
    case CommandBufferRecycle(_, cb) => RecycleCommandBuffer(forge, cb);
    case DescriptorSetRecycle(_) => forge.Emit(AssertionFailed(UnhandledTaskType));
  }

  /** One more task through the flush: a due task adds its effects and its
      recycled buffer, any other task is kept. */
  lemma RetireStep(device: Handle, instance: Handle, s: seq<DeferredTask>, x: DeferredTask, value: nat, immediate: bool)
    ensures Due(x, value, immediate) ==>
              && Pending(s + [x], value, immediate) == Pending(s, value, immediate)
              && RunEffects(device, instance, Retired(s + [x], value, immediate))
                 == RunEffects(device, instance, Retired(s, value, immediate)) + TaskEffects(device, instance, x)
              && Recycled(Retired(s + [x], value, immediate)) == Recycled(Retired(s, value, immediate)) + Recycled([x])
    ensures !Due(x, value, immediate) ==>
              && Pending(s + [x], value, immediate) == Pending(s, value, immediate) + [x]
              && Retired(s + [x], value, immediate) == Retired(s, value, immediate)
  {
    FilterStep(s, x, value, immediate);
    var done := Retired(s, value, immediate);
    if Due(x, value, immediate) {
      RunStep(device, instance, done, x);
      RecycledStep(done, x);
    } else {
      assert done + [] == done;
    }
  }

  /** The flush lambda on a due task, `done` being the tasks visited before it
      and `trace0` and `free0` the trace and free list before the pass began. */
  method RunDueTask(forge: Forge, ghost done: seq<DeferredTask>, task: DeferredTask, value: nat, immediate: bool,
                    ghost trace0: seq<Effect>, ghost free0: seq<Handle>)
    requires Due(task, value, immediate)
    requires forge.trace == trace0 + RunEffects(forge.device, forge.instance, Retired(done, value, immediate))
    requires forge.commandBufferManager.availableCommandBuffers == free0 + Recycled(Retired(done, value, immediate))
    modifies forge, forge.commandBufferManager
    ensures Pending(done + [task], value, immediate) == Pending(done, value, immediate)
    ensures forge.trace == trace0 + RunEffects(forge.device, forge.instance, Retired(done + [task], value, immediate))
    ensures forge.commandBufferManager.availableCommandBuffers == free0 + Recycled(Retired(done + [task], value, immediate))
    ensures forge.commandBufferManager.pool == old(forge.commandBufferManager.pool)
    ensures forge.lastHandle == old(forge.lastHandle) && forge.nextCheckPoint == old(forge.nextCheckPoint)
  {
    RetireStep(forge.device, forge.instance, done, task, value, immediate);
    ghost var ran := RunEffects(forge.device, forge.instance, Retired(done, value, immediate));
    ghost var recycled := Recycled(Retired(done, value, immediate));
    RunTask(forge, task);
    Associative(trace0, ran, TaskEffects(forge.device, forge.instance, task));
    Associative(free0, recycled, Recycled([task]));
  }

  /** Regrouping a concatenation. Stated as a lemma because asserting it in
      place, beside the heap update of `RunDueTask`, is far costlier. */
  lemma Associative<T>(a: seq<T>, b: seq<T>, c: seq<T>)
    ensures a + b + c == a + (b + c)
  {
  }

  /** The remove_if pass of `forge_deferred_queue_flush`: runs the due tasks
      in order and returns the others, in order. */
  method RunDue(forge: Forge, tasks: seq<DeferredTask>, value: nat, immediate: bool) returns (kept: seq<DeferredTask>)
    modifies forge, forge.commandBufferManager
    ensures kept == Pending(tasks, value, immediate)
    ensures forge.trace == old(forge.trace) + RunEffects(forge.device, forge.instance, Retired(tasks, value, immediate))
    ensures forge.commandBufferManager.availableCommandBuffers
         == old(forge.commandBufferManager.availableCommandBuffers) + Recycled(Retired(tasks, value, immediate))
    ensures forge.commandBufferManager.pool == old(forge.commandBufferManager.pool)
    ensures forge.lastHandle == old(forge.lastHandle) && forge.nextCheckPoint == old(forge.nextCheckPoint)
  {
    ghost var trace0 := forge.trace;
    ghost var free0 := forge.commandBufferManager.availableCommandBuffers;
    kept := [];
    var i := 0;
    while i < |tasks|
      invariant 0 <= i <= |tasks|
      invariant kept == Pending(tasks[..i], value, immediate)
      invariant forge.trace == trace0 + RunEffects(forge.device, forge.instance, Retired(tasks[..i], value, immediate))
      invariant forge.commandBufferManager.availableCommandBuffers == free0 + Recycled(Retired(tasks[..i], value, immediate))
      invariant forge.commandBufferManager.pool == old(forge.commandBufferManager.pool)
      invariant forge.lastHandle == old(forge.lastHandle) && forge.nextCheckPoint == old(forge.nextCheckPoint)
    {
      var task := tasks[i];
      assert tasks[..i + 1] == tasks[..i] + [task];
      if Due(task, value, immediate) {
        RunDueTask(forge, tasks[..i], task, value, immediate, trace0, free0);
      } else {
        RetireStep(forge.device, forge.instance, tasks[..i], task, value, immediate);
        kept := kept + [task];
      }
      i := i + 1;
    }
    assert tasks[..|tasks|] == tasks;
  }

  /** `forge_deferred_queue_flush`: `value` and `readSucceeds` are the counter
      value of the context's timeline semaphore, read once, and the outcome of
      reading it. */
  method Flush(forge: Forge, queue: DeferredQueue, value: nat, readSucceeds: bool, immediate: bool)
    modifies forge, queue, forge.commandBufferManager
    ensures queue.deferredTasks == Pending(old(queue.deferredTasks), value, immediate)
    ensures forge.trace == old(forge.trace)
              + (if readSucceeds then [] else [ResultCheckFailed(GetSemaphoreCounterValue)])
              + RunEffects(forge.device, forge.instance, Retired(old(queue.deferredTasks), value, immediate))
    ensures forge.commandBufferManager.availableCommandBuffers
         == old(forge.commandBufferManager.availableCommandBuffers) + Recycled(Retired(old(queue.deferredTasks), value, immediate))
    ensures forge.commandBufferManager.pool == old(forge.commandBufferManager.pool)
    ensures forge.lastHandle == old(forge.lastHandle) && forge.nextCheckPoint == old(forge.nextCheckPoint)
  {
    if !readSucceeds {
      forge.Emit(ResultCheckFailed(GetSemaphoreCounterValue));
    }
    var kept := RunDue(forge, queue.deferredTasks, value, immediate);
    queue.deferredTasks := kept;
  }

  // ---------------------------------------------------------------------------
  // What a flush does, stated over the specification functions.

  /** One more task at the end of the queue: the unfolding the flush loop uses. */
  lemma FilterStep(s: seq<DeferredTask>, x: DeferredTask, value: nat, immediate: bool)
    ensures Pending(s + [x], value, immediate) == Pending(s, value, immediate) + (if Due(x, value, immediate) then [] else [x])
    ensures Retired(s + [x], value, immediate) == Retired(s, value, immediate) + (if Due(x, value, immediate) then [x] else [])
  {
    assert (s + [x])[..|s|] == s;
  }

  /** One more task run: its effects come last. */
  lemma RunStep(device: Handle, instance: Handle, s: seq<DeferredTask>, x: DeferredTask)
    ensures RunEffects(device, instance, s + [x]) == RunEffects(device, instance, s) + TaskEffects(device, instance, x)
  {
    assert (s + [x])[..|s|] == s;
  }

  /** One more task run: its recycled buffer, if any, comes last. */
  lemma RecycledStep(s: seq<DeferredTask>, x: DeferredTask)
    ensures Recycled(s + [x]) == Recycled(s) + Recycled([x])
  {
    assert (s + [x])[..|s|] == s;
    assert Recycled([x]) == Recycled([]) + (if x.CommandBufferRecycle? then [x.commandBuffer] else []);
  }

  /** Filtering distributes over concatenation: a flush treats every task on
      its own and keeps the survivors in their relative order. */
  lemma {:induction false} FlushConcat(a: seq<DeferredTask>, b: seq<DeferredTask>, value: nat, immediate: bool)
    ensures Pending(a + b, value, immediate) == Pending(a, value, immediate) + Pending(b, value, immediate)
    ensures Retired(a + b, value, immediate) == Retired(a, value, immediate) + Retired(b, value, immediate)
    decreases |b|
  {
    if b == [] {
      assert a + b == a;
    } else {
      var b' := b[..|b| - 1];
      assert (a + b)[..|a + b| - 1] == a + b';
      assert (a + b)[|a + b| - 1] == b[|b| - 1];
      FlushConcat(a, b', value, immediate);
    }
  }

  /** A flush keeps exactly the tasks that are not due. */
  lemma {:induction false} PendingMembers(tasks: seq<DeferredTask>, value: nat, immediate: bool, t: DeferredTask)
    ensures t in Pending(tasks, value, immediate) <==> t in tasks && !Due(t, value, immediate)
    decreases |tasks|
  {
    if tasks != [] {
      var init := tasks[..|tasks| - 1];
      assert tasks == init + [tasks[|tasks| - 1]];
      PendingMembers(init, value, immediate, t);
    }
  }

  /** A flush runs exactly the tasks that are due. */
  lemma {:induction false} RetiredMembers(tasks: seq<DeferredTask>, value: nat, immediate: bool, t: DeferredTask)
    ensures t in Retired(tasks, value, immediate) <==> t in tasks && Due(t, value, immediate)
    decreases |tasks|
  {
    if tasks != [] {
      var init := tasks[..|tasks| - 1];
      assert tasks == init + [tasks[|tasks| - 1]];
      RetiredMembers(init, value, immediate, t);
    }
  }

  /** Every task is either run or kept, and none is run twice. */
  lemma {:induction false} FlushPartition(tasks: seq<DeferredTask>, value: nat, immediate: bool)
    ensures multiset(Pending(tasks, value, immediate)) + multiset(Retired(tasks, value, immediate)) == multiset(tasks)
    decreases |tasks|
  {
    if tasks != [] {
      var init := tasks[..|tasks| - 1];
      assert tasks == init + [tasks[|tasks| - 1]];
      FlushPartition(init, value, immediate);
    }
  }

  /** An immediate flush runs every task and leaves the queue empty. */
  lemma {:induction false} ImmediateFlushRunsAll(tasks: seq<DeferredTask>, value: nat)
    ensures Pending(tasks, value, true) == []
    ensures Retired(tasks, value, true) == tasks
    decreases |tasks|
  {
    if tasks != [] {
      var init := tasks[..|tasks| - 1];
      assert tasks == init + [tasks[|tasks| - 1]];
      ImmediateFlushRunsAll(init, value);
    }
  }

  /** A second immediate flush finds nothing to do: no native call, no recycle. */
  lemma ImmediateFlushTwice(device: Handle, instance: Handle, tasks: seq<DeferredTask>, value1: nat, value2: nat)
    ensures var left := Pending(tasks, value1, true);
            left == [] && Pending(left, value2, true) == []
            && RunEffects(device, instance, Retired(left, value2, true)) == []
            && Recycled(Retired(left, value2, true)) == []
  {
    ImmediateFlushRunsAll(tasks, value1);
  }

  /** A non-immediate flush at a value below every tag runs nothing. */
  lemma {:induction false} NothingDue(tasks: seq<DeferredTask>, value: nat)
    requires forall i :: 0 <= i < |tasks| ==> value < tasks[i].executionSignal
    ensures Pending(tasks, value, false) == tasks
    ensures Retired(tasks, value, false) == []
    decreases |tasks|
  {
    if tasks != [] {
      var init := tasks[..|tasks| - 1];
      assert tasks == init + [tasks[|tasks| - 1]];
      NothingDue(init, value);
    }
  }

  /** Recycled distributes over concatenation. */
  lemma {:induction false} RecycledConcat(a: seq<DeferredTask>, b: seq<DeferredTask>)
    ensures Recycled(a + b) == Recycled(a) + Recycled(b)
    decreases |b|
  {
    if b == [] {
      assert a + b == a;
    } else {
      var b' := b[..|b| - 1];
      assert (a + b)[..|a + b| - 1] == a + b';
      RecycledConcat(a, b');
    }
  }

  /** Every command buffer of a recycle task is handed back exactly once: by
      this flush if its task is due, otherwise by the task that stays queued. */
  lemma {:induction false} RecycledPartition(tasks: seq<DeferredTask>, value: nat, immediate: bool)
    ensures multiset(Recycled(Retired(tasks, value, immediate))) + multiset(Recycled(Pending(tasks, value, immediate)))
         == multiset(Recycled(tasks))
    decreases |tasks|
  {
    if tasks != [] {
      var init := tasks[..|tasks| - 1];
      var last := tasks[|tasks| - 1];
      assert tasks == init + [last];
      RecycledPartition(init, value, immediate);
      FilterStep(init, last, value, immediate);
      RecycledStep(init, last);
      var r := Retired(init, value, immediate);
      var p := Pending(init, value, immediate);
      var tail := Recycled([last]);
      assert multiset(Recycled(tasks)) == multiset(Recycled(init)) + multiset(tail);
      if Due(last, value, immediate) {
        RecycledStep(r, last);
        assert Retired(tasks, value, immediate) == r + [last];
        assert multiset(Recycled(r + [last])) == multiset(Recycled(r)) + multiset(tail);
        assert Pending(tasks, value, immediate) == p;
      } else {
        RecycledStep(p, last);
        assert Pending(tasks, value, immediate) == p + [last];
        assert multiset(Recycled(p + [last])) == multiset(Recycled(p)) + multiset(tail);
        assert Retired(tasks, value, immediate) == r;
      }
    }
  }

  /** The command buffers of `tasks`' recycle tasks are exactly those carried
      by some recycle task in `tasks`. */
  lemma {:induction false} RecycledMembers(tasks: seq<DeferredTask>, cb: Handle)
    ensures cb in Recycled(tasks) <==> exists i :: 0 <= i < |tasks| && tasks[i] == CommandBufferRecycle(tasks[i].executionSignal, cb)
    decreases |tasks|
  {
    if tasks != [] {
      var init := tasks[..|tasks| - 1];
      RecycledMembers(init, cb);
      if cb in Recycled(init) {
        var i :| 0 <= i < |init| && init[i] == CommandBufferRecycle(init[i].executionSignal, cb);
        assert tasks[i] == init[i];
      }
      if exists i :: 0 <= i < |tasks| && tasks[i] == CommandBufferRecycle(tasks[i].executionSignal, cb) {
        var i :| 0 <= i < |tasks| && tasks[i] == CommandBufferRecycle(tasks[i].executionSignal, cb);
        if i < |init| {
          assert init[i] == tasks[i];
        }
      }
    }
  }

  /** A command buffer comes back from a flush exactly when one of its recycle
      tasks was due. */
  lemma RecycledIffDue(tasks: seq<DeferredTask>, value: nat, immediate: bool, cb: Handle)
    ensures cb in Recycled(Retired(tasks, value, immediate))
        <==> exists i :: 0 <= i < |tasks| && tasks[i] == CommandBufferRecycle(tasks[i].executionSignal, cb)
                                           && Due(tasks[i], value, immediate)
  {
    var run := Retired(tasks, value, immediate);
    RecycledMembers(run, cb);
    if cb in Recycled(run) {
      var j :| 0 <= j < |run| && run[j] == CommandBufferRecycle(run[j].executionSignal, cb);
      RetiredMembers(tasks, value, immediate, run[j]);
      var i :| 0 <= i < |tasks| && tasks[i] == run[j];
      assert tasks[i] == CommandBufferRecycle(tasks[i].executionSignal, cb) && Due(tasks[i], value, immediate);
    }
    if exists i :: 0 <= i < |tasks| && tasks[i] == CommandBufferRecycle(tasks[i].executionSignal, cb) && Due(tasks[i], value, immediate) {
      var i :| 0 <= i < |tasks| && tasks[i] == CommandBufferRecycle(tasks[i].executionSignal, cb) && Due(tasks[i], value, immediate);
      RetiredMembers(tasks, value, immediate, tasks[i]);
      var j :| 0 <= j < |run| && run[j] == tasks[i];
      assert run[j] == CommandBufferRecycle(run[j].executionSignal, cb);
    }
  }

  /** Each task that is not a recycle contributes exactly one effect, so a flush
      issues one native call or failed assertion per such task it runs. */
  lemma {:induction false} RunEffectsCount(device: Handle, instance: Handle, tasks: seq<DeferredTask>)
    ensures |RunEffects(device, instance, tasks)| + |Recycled(tasks)| == |tasks|
    decreases |tasks|
  {
    if tasks != [] {
      RunEffectsCount(device, instance, tasks[..|tasks| - 1]);
    }
  }
}
