/** ForgeDeletionQueue.cpp and .h: a queue of native objects to destroy, each
    tagged with the timeline value after which the GPU no longer uses it, and
    the timeline semaphore the flush reads. */
module ForgeDeletionQueue {
  import opened Vk
  import opened Forge

  /** `ForgeDeletionQueue::Entry`. */
  datatype Entry = Entry(signal: nat, objectType: ObjectType, handle: Handle)

  class DeletionQueue {
    var entries: seq<Entry>
    /** Advanced by every flush; no part of the core reads it back. */
    var nextSignal: nat
    var semaphore: Handle

    /** `new ForgeDeletionQueue()`: value-initialised. */
    constructor ()
      ensures entries == [] && nextSignal == 0 && semaphore == Null
    {
      entries := [];
      nextSignal := 0;
      semaphore := Null;
    }
  }

  /** The test of the flush lambda. */
  predicate Expired(entry: Entry, value: nat, immediate: bool) {
    immediate || value >= entry.signal
  }

  /** The entries a flush keeps, in order. */
  function Kept(entries: seq<Entry>, value: nat, immediate: bool): seq<Entry>
    decreases |entries|
  {
    if entries == [] then []
    else
      var last := entries[|entries| - 1];
      Kept(entries[..|entries| - 1], value, immediate) + (if Expired(last, value, immediate) then [] else [last])
  }

  /** The entries a flush destroys, in order. */
  function Deleted(entries: seq<Entry>, value: nat, immediate: bool): seq<Entry>
    decreases |entries|
  {
    if entries == [] then []
    else
      var last := entries[|entries| - 1];
      Deleted(entries[..|entries| - 1], value, immediate) + (if Expired(last, value, immediate) then [last] else [])
  }

  /** The destroy calls (or failed assertions) for the given entries, in order. */
  function DeleteEffects(device: Handle, instance: Handle, entries: seq<Entry>): seq<Effect>
    decreases |entries|
  {
    if entries == [] then []
    else
      var init := entries[..|entries| - 1];
      var last := entries[|entries| - 1];
      DeleteEffects(device, instance, init) + [DestroyEffect(device, instance, last.objectType, last.handle)]
  }

  /** The i-th entry destroyed issues the i-th effect, and nothing else is issued. */
  lemma {:induction false} DeleteEffectsAt(device: Handle, instance: Handle, entries: seq<Entry>)
    ensures |DeleteEffects(device, instance, entries)| == |entries|
    ensures forall i :: 0 <= i < |entries| ==>
              DeleteEffects(device, instance, entries)[i] == DestroyEffect(device, instance, entries[i].objectType, entries[i].handle)
    decreases |entries|
  {
    if entries != [] {
      DeleteEffectsAt(device, instance, entries[..|entries| - 1]);
    }
  }

  /** One more entry at the end of the queue. */
  lemma FilterStep(s: seq<Entry>, x: Entry, value: nat, immediate: bool)
    ensures Kept(s + [x], value, immediate) == Kept(s, value, immediate) + (if Expired(x, value, immediate) then [] else [x])
    ensures Deleted(s + [x], value, immediate) == Deleted(s, value, immediate) + (if Expired(x, value, immediate) then [x] else [])
  {
    assert (s + [x])[..|s|] == s;
  }

  /** One more entry destroyed: its effect comes last. */
  lemma DeleteStep(device: Handle, instance: Handle, s: seq<Entry>, x: Entry)
    ensures DeleteEffects(device, instance, s + [x])
         == DeleteEffects(device, instance, s) + [DestroyEffect(device, instance, x.objectType, x.handle)]
  {
    assert (s + [x])[..|s|] == s;
  }

  /** `_forge_deletion_queue_init`: `semaphoreCreated` is the outcome of
      vkCreateSemaphore for the timeline semaphore. */
  method Init(forge: Forge, queue: DeletionQueue, semaphoreCreated: bool) returns (ok: bool)
    modifies forge, queue
    ensures ok == semaphoreCreated
    ensures ok ==> queue.semaphore == old(forge.lastHandle) + 1 && forge.lastHandle == queue.semaphore
                   && forge.trace == old(forge.trace)
    ensures !ok ==> queue.semaphore == old(queue.semaphore) && forge.lastHandle == old(forge.lastHandle)
                    && forge.trace == old(forge.trace) + [ResultCheckFailed(CreateSemaphore)]
    ensures queue.entries == old(queue.entries) && queue.nextSignal == old(queue.nextSignal)
    ensures forge.nextCheckPoint == old(forge.nextCheckPoint)
  {
    if semaphoreCreated {
      var s := forge.NewHandle();
      queue.semaphore := s;
      ok := true;
    } else {
      forge.Emit(ResultCheckFailed(CreateSemaphore));
      ok := false;
    }
  }

  /** `forge_deletion_queue_destroy`: destroys the semaphore, null or not. The
      entries still queued are not destroyed. */
  method Destroy(forge: Forge, queue: DeletionQueue?)
    modifies forge
    ensures forge.trace == old(forge.trace) + (if queue != null then [Destroyed(DestroySemaphore, queue.semaphore)] else [])
    ensures forge.lastHandle == old(forge.lastHandle) && forge.nextCheckPoint == old(forge.nextCheckPoint)
  {
    if queue != null {
      forge.Emit(Destroyed(DestroySemaphore, queue.semaphore));
    }
  }

  /** `forge_deletion_queue_new`: null when the semaphore cannot be created,
      after destroying the null semaphore. */
  method New(forge: Forge, semaphoreCreated: bool) returns (queue: DeletionQueue?)
    modifies forge
    ensures semaphoreCreated <==> queue != null
    ensures queue != null ==> fresh(queue) && queue.entries == [] && queue.nextSignal == 1
                              && queue.semaphore == old(forge.lastHandle) + 1 && forge.lastHandle == queue.semaphore
                              && forge.trace == old(forge.trace)
    ensures queue == null ==> forge.lastHandle == old(forge.lastHandle)
                              && forge.trace == old(forge.trace) + [ResultCheckFailed(CreateSemaphore), Destroyed(DestroySemaphore, Null)]
    ensures forge.nextCheckPoint == old(forge.nextCheckPoint)
  {
    var q := new DeletionQueue();
    q.nextSignal := 1;
    var ok := Init(forge, q, semaphoreCreated);
    if !ok {
      Destroy(forge, q);
      queue := null;
    } else {
      queue := q;
    }
  }

  /** `forge_deletion_queue_push<T>`: `objectType` is `_vk_object_type<T>()`. */
  method Push(forge: Forge, queue: DeletionQueue, objectType: ObjectType, handle: Handle)
    modifies queue
    ensures queue.entries == old(queue.entries) + [Entry(forge.nextCheckPoint, objectType, handle)]
    ensures queue.nextSignal == old(queue.nextSignal) && queue.semaphore == old(queue.semaphore)
  {
    queue.entries := queue.entries + [Entry(forge.nextCheckPoint, objectType, handle)];
  }

  /** The remove_if pass of `forge_deletion_queue_flush`: destroys the
      expired entries in order and returns the others, in order. */
  method DestroyExpired(forge: Forge, entries: seq<Entry>, value: nat, immediate: bool) returns (kept: seq<Entry>)
    modifies forge
    ensures kept == Kept(entries, value, immediate)
    ensures forge.trace == old(forge.trace) + DeleteEffects(forge.device, forge.instance, Deleted(entries, value, immediate))
    ensures forge.lastHandle == old(forge.lastHandle) && forge.nextCheckPoint == old(forge.nextCheckPoint)
  {
    kept := [];
    var i := 0;
    while i < |entries|
      invariant 0 <= i <= |entries|
      invariant kept == Kept(entries[..i], value, immediate)
      invariant forge.trace == old(forge.trace) + DeleteEffects(forge.device, forge.instance, Deleted(entries[..i], value, immediate))
      invariant forge.lastHandle == old(forge.lastHandle) && forge.nextCheckPoint == old(forge.nextCheckPoint)
    {
      var entry := entries[i];
      assert entries[..i + 1] == entries[..i] + [entry];
      FilterStep(entries[..i], entry, value, immediate);
      ghost var done := Deleted(entries[..i], value, immediate);
      if Expired(entry, value, immediate) {
        DeleteStep(forge.device, forge.instance, done, entry);
        forge.Emit(DestroyEffect(forge.device, forge.instance, entry.objectType, entry.handle));
      } else {
        assert done + [] == done;
        kept := kept + [entry];
      }
      i := i + 1;
    }
    assert entries[..|entries|] == entries;
  }

  /** `forge_deletion_queue_flush`: `value` and `readSucceeds` are the counter
      value of the queue's semaphore and the outcome of reading it. */
  method Flush(forge: Forge, queue: DeletionQueue, value: nat, readSucceeds: bool, immediate: bool)
    modifies forge, queue
    ensures queue.entries == Kept(old(queue.entries), value, immediate)
    ensures forge.trace == old(forge.trace)
              + (if readSucceeds then [] else [ResultCheckFailed(GetSemaphoreCounterValue)])
              + DeleteEffects(forge.device, forge.instance, Deleted(old(queue.entries), value, immediate))
    ensures queue.nextSignal == (old(queue.nextSignal) + 1) % U64
    ensures queue.semaphore == old(queue.semaphore)
    ensures forge.lastHandle == old(forge.lastHandle) && forge.nextCheckPoint == old(forge.nextCheckPoint)
  {
    if !readSucceeds {
      forge.Emit(ResultCheckFailed(GetSemaphoreCounterValue));
    }
    var kept := DestroyExpired(forge, queue.entries, value, immediate);
    queue.entries := kept;
    queue.nextSignal := (queue.nextSignal + 1) % U64;
  }

  // ---------------------------------------------------------------------------
  // What a flush does, over the specification functions.

  /** Each entry is either destroyed or kept, and none twice. */
  lemma {:induction false} FlushPartition(entries: seq<Entry>, value: nat, immediate: bool)
    ensures multiset(Kept(entries, value, immediate)) + multiset(Deleted(entries, value, immediate)) == multiset(entries)
    decreases |entries|
  {
    if entries != [] {
      var init := entries[..|entries| - 1];
      assert entries == init + [entries[|entries| - 1]];
      FlushPartition(init, value, immediate);
    }
  }

  /** A flush destroys exactly the expired entries and keeps the others. */
  lemma {:induction false} FlushMembers(entries: seq<Entry>, value: nat, immediate: bool, e: Entry)
    ensures e in Deleted(entries, value, immediate) <==> e in entries && Expired(e, value, immediate)
    ensures e in Kept(entries, value, immediate) <==> e in entries && !Expired(e, value, immediate)
    decreases |entries|
  {
    if entries != [] {
      var init := entries[..|entries| - 1];
      assert entries == init + [entries[|entries| - 1]];
      FlushMembers(init, value, immediate, e);
    }
  }

  /** The entries are destroyed in the order they were pushed: destroying a
      prefix and a suffix is destroying the whole. */
  lemma {:induction false} FlushConcat(a: seq<Entry>, b: seq<Entry>, value: nat, immediate: bool)
    ensures Kept(a + b, value, immediate) == Kept(a, value, immediate) + Kept(b, value, immediate)
    ensures Deleted(a + b, value, immediate) == Deleted(a, value, immediate) + Deleted(b, value, immediate)
    decreases |b|
  {
    if b == [] {
      assert a + b == a;
    } else {
      var b' := b[..|b| - 1];
      assert (a + b)[..|a + b| - 1] == a + b';
      assert (a + b)[|a + b| - 1] == b[|b| - 1];
      FlushConcat(a, b', value, immediate);
    }
  }

  /** An immediate flush destroys everything; a second one destroys nothing. */
  lemma {:induction false} ImmediateFlushDeletesAll(entries: seq<Entry>, value: nat)
    ensures Kept(entries, value, true) == []
    ensures Deleted(entries, value, true) == entries
    decreases |entries|
  {
    if entries != [] {
      var init := entries[..|entries| - 1];
      assert entries == init + [entries[|entries| - 1]];
      ImmediateFlushDeletesAll(init, value);
    }
  }

  /** Entries pushed at check points 1, 2 and 3 and flushed when the timeline
      reads 2: the first two are destroyed in order, the third stays. */
  lemma ThreeCheckPoints(a: Handle, b: Handle, c: Handle)
    ensures var entries := [Entry(1, BufferObject, a), Entry(2, ImageObject, b), Entry(3, SamplerObject, c)];
            Deleted(entries, 2, false) == entries[..2] && Kept(entries, 2, false) == entries[2..]
  {
    var entries := [Entry(1, BufferObject, a), Entry(2, ImageObject, b), Entry(3, SamplerObject, c)];
    FilterStep([], entries[0], 2, false);
    assert [] + [entries[0]] == entries[..1];
    FilterStep(entries[..1], entries[1], 2, false);
    assert entries[..1] + [entries[1]] == entries[..2];
    FilterStep(entries[..2], entries[2], 2, false);
    assert entries[..2] + [entries[2]] == entries;
  }
}
