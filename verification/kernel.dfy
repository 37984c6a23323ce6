/**
 An abstract view of the FreeRTOS SMP kernel, as far as the fire-panel
 firmware consumes it: a table of created tasks (each with its entry point,
 name, stack depth, argument, priority and core affinity), task creation that
 either succeeds or runs out of memory, a core-affinity update, and the
 scheduler start. Everything else about the kernel (run queues, preemption,
 the heap allocator) is outside this model.
 */
module Kernel {
  import opened FreeRTOSConfig

  /** The identity of a task entry function, by its C name. */
  type EntryPoint = string

  /** A task handle: NULL, or the handle of a created task. */
  datatype TaskHandle = NullHandle | Handle(id: nat)

  /** The `pvParameters` pointer passed to a task. */
  datatype TaskArg = NoArg | TextArg(text: string) | OpaqueArg(address: nat)

  /**
   A task's core affinity: `NoAffinity` is the kernel default that lets a
   task run on any core (tskNO_AFFINITY); `Pinned` carries an explicit mask.
   */
  datatype Affinity = NoAffinity | Pinned(mask: Mask)

  /** What the caller asks `xTaskCreate` for. */
  datatype TaskParams = TaskParams(
    code: EntryPoint,
    name: string,
    stackDepth: nat,
    arg: TaskArg,
    priority: nat)

  /** Statically allocated buffers the application hands the kernel for its own tasks. */
  datatype StaticBuffer =
    | IdleTcb
    | IdleStack
    | TimerTcb
    | TimerStack
    | PassiveIdleTcb(slot: nat)
    | PassiveIdleStack(slot: nat)

  /** The answer of a static-memory callback: a control block, a stack, and the stack's size in words. */
  datatype TaskMemory = TaskMemory(tcb: StaticBuffer, stack: StaticBuffer, stackSize: nat)

  /** Where a task's control block and stack live: the kernel heap, or application buffers. */
  datatype Storage = HeapAllocated | StaticStorage(tcb: StaticBuffer, stack: StaticBuffer)

  /** The kernel's record of one created task. */
  datatype TaskRecord = TaskRecord(params: TaskParams, affinity: Affinity, storage: Storage)

  /**
   The kernel state: created tasks by handle id, the id the next creation
   will receive, and whether the scheduler has been started.
   */
  datatype Scheduler = Scheduler(tasks: map<nat, TaskRecord>, nextHandle: nat, running: bool)
  {
    /** Every handle handed out so far is below `nextHandle`. */
    predicate Valid()
    {
      forall id :: id in tasks ==> id < nextHandle
    }
  }

  /** Every task of `s` is still in `s'`, unchanged. */
  predicate KeepsTasks(s: Scheduler, s': Scheduler)
  {
    forall id :: id in s.tasks ==> id in s'.tasks && s'.tasks[id] == s.tasks[id]
  }

  /** The `TaskHandle_t *pxCreatedTask` argument: a NULL pointer, or a variable holding a handle. */
  datatype HandleOut = NoSlot | Slot(handle: TaskHandle)

  /** BaseType_t results of task creation. */
  datatype CreateStatus = Pass | CouldNotAllocate

  /** The result of a creation call: its return value, the new kernel state and the handle variable. */
  datatype Creation = Creation(status: CreateStatus, sched: Scheduler, out: HandleOut)

  /**
   `s'` is `s` with exactly one more task, `rec`, under the fresh handle
   id `id`; nothing else changed.
   */
  predicate Spawned(s: Scheduler, s': Scheduler, id: nat, rec: TaskRecord)
  {
    && id !in s.tasks
    && s'.tasks == s.tasks[id := rec]
    && s'.running == s.running
  }

  /** A spawn keeps every earlier task. */
  lemma SpawnKeepsTasks(s: Scheduler, s': Scheduler, id: nat, rec: TaskRecord)
    requires Spawned(s, s', id, rec)
    ensures KeepsTasks(s, s')
  {
  }

  /** Keeping tasks composes. */
  lemma KeepsTasksTransitive(a: Scheduler, b: Scheduler, c: Scheduler)
    requires KeepsTasks(a, b) && KeepsTasks(b, c)
    ensures KeepsTasks(a, c)
  {
  }

  /**
   `xTaskCreate`. Whether the control block and stack can be allocated is
   decided by the environment (`memoryOk`). On success the new task gets the
   next handle and the default affinity, and the handle is written through
   `out` when the caller supplied a variable; on failure nothing changes.
   */
  function TaskCreate(s: Scheduler, p: TaskParams, out: HandleOut, memoryOk: bool): (r: Creation)
    requires s.Valid()
    ensures r.sched.Valid()
    ensures r.status == Pass <==> memoryOk
    ensures !memoryOk ==> r.sched == s && r.out == out
    ensures memoryOk ==> Spawned(s, r.sched, s.nextHandle, TaskRecord(p, NoAffinity, HeapAllocated))
    ensures memoryOk ==> r.out == (if out.Slot? then Slot(Handle(s.nextHandle)) else NoSlot)
  {
    if !memoryOk then
      Creation(CouldNotAllocate, s, out)
    else
      var id := s.nextHandle;
      var s' := Scheduler(s.tasks[id := TaskRecord(p, NoAffinity, HeapAllocated)], id + 1, s.running);
      Creation(Pass, s', if out.Slot? then Slot(Handle(id)) else NoSlot)
  }

  /** A creation adds exactly one task when it passes and none when it fails. */
  lemma TaskCreateCount(s: Scheduler, p: TaskParams, out: HandleOut, memoryOk: bool)
    requires s.Valid()
    ensures |TaskCreate(s, p, out, memoryOk).sched.tasks| == |s.tasks| + (if memoryOk then 1 else 0)
  {
  }

  /** `vTaskCoreAffinitySet`: replace one task's affinity with `mask`, nothing else. */
  function CoreAffinitySet(s: Scheduler, id: nat, mask: Mask): (s': Scheduler)
    requires id in s.tasks
    ensures s'.tasks.Keys == s.tasks.Keys
    ensures s'.tasks[id] == s.tasks[id].(affinity := Pinned(mask))
    ensures forall other :: other in s.tasks && other != id ==> s'.tasks[other] == s.tasks[other]
    ensures s'.nextHandle == s.nextHandle && s'.running == s.running
  {
    s.(tasks := s.tasks[id := s.tasks[id].(affinity := Pinned(mask))])
  }

  /**
   A task the kernel creates for itself from application-supplied memory:
   its stack depth is the size the callback reported, and it is placed in
   the callback's buffers.
   */
  function KernelTask(code: EntryPoint, name: string, mem: TaskMemory, priority: nat): TaskRecord
  {
    TaskRecord(TaskParams(code, name, mem.stackSize, NoArg, priority), NoAffinity, StaticStorage(mem.tcb, mem.stack))
  }

  /**
   Task `id` of `s` is a kernel task at `priority`, with the default
   affinity, living in the buffers of `mem` with the stack size `mem` reports.
   */
  predicate HoldsKernelTask(s: Scheduler, id: nat, mem: TaskMemory, priority: nat)
  {
    && id in s.tasks
    && s.tasks[id].params.priority == priority
    && s.tasks[id].params.stackDepth == mem.stackSize
    && s.tasks[id].affinity == NoAffinity
    && s.tasks[id].storage == StaticStorage(mem.tcb, mem.stack)
  }

  /**
   `vTaskStartScheduler` on a two-core build with static allocation: the
   kernel creates the active idle task of core 0, the passive idle task of
   core 1 and the timer service task, each in the memory its callback
   returned (`idle`, `passiveIdle`, `timer`), and starts scheduling.
   Whether it manages to start is decided by the environment (`startOk`);
   a failed start is modelled as leaving the task set as it was.
   */
  function StartScheduler(s: Scheduler, idle: TaskMemory, passiveIdle: TaskMemory, timer: TaskMemory,
                          startOk: bool): (s': Scheduler)
    requires s.Valid()
    ensures s'.Valid()
    ensures s'.running <==> startOk
    ensures !startOk ==> s'.tasks == s.tasks && s'.nextHandle == s.nextHandle
    ensures startOk ==>
              var n := s.nextHandle;
              && s'.nextHandle == n + 3
              && s'.tasks.Keys == s.tasks.Keys + {n, n + 1, n + 2}
              && KeepsTasks(s, s')
              && HoldsKernelTask(s', n, idle, IDLE_PRIORITY)
              && HoldsKernelTask(s', n + 1, passiveIdle, IDLE_PRIORITY)
              && HoldsKernelTask(s', n + 2, timer, TIMER_TASK_PRIORITY)
  {
    if !startOk then
      s.(running := false)
    else
      var n := s.nextHandle;
      var tasks := s.tasks[n := KernelTask("prvIdleTask", "IDLE0", idle, IDLE_PRIORITY)]
                          [n + 1 := KernelTask("prvPassiveIdleTask", "IDLE1", passiveIdle, IDLE_PRIORITY)]
                          [n + 2 := KernelTask("prvTimerTask", "Tmr Svc", timer, TIMER_TASK_PRIORITY)];
      Scheduler(tasks, n + 3, true)
  }
}
