/**
 The SMP utilities of the panel: a task launcher that pins the new task to a
 core-affinity mask, the three role launchers built on it, the runtime check
 of the SMP configuration, and the creation of the two SMP test tasks.

 Between a successful creation and the affinity update the real kernel may
 already run the new task on either core; that window is a concurrency
 property and this sequential model does not represent it.
 */
module SmpConfig {
  import opened FreeRTOSConfig
  import opened Kernel

  /** The affinity a launch leaves on its new task: pinned only when the caller supplied a handle variable. */
  function LaunchAffinity(out: HandleOut, mask: Mask): Affinity
  {
    if out.Slot? then Pinned(mask) else NoAffinity
  }

  /**
   `xTaskCreateWithAffinity`: create the task, and only when creation
   passed, a handle variable was supplied and it holds a non-NULL handle,
   set the new task's affinity. The creation's return value is passed back
   unchanged. The kernel writes a non-NULL handle on every successful
   creation, so the third test never decides anything on its own.
   */
  function TaskCreateWithAffinity(s: Scheduler, p: TaskParams, out: HandleOut, mask: Mask, memoryOk: bool): (r: Creation)
    requires s.Valid()
    ensures r.sched.Valid()
    ensures r.status == TaskCreate(s, p, out, memoryOk).status
    ensures r.status == Pass <==> memoryOk
    ensures !memoryOk ==> r.sched == s && r.out == out
    ensures memoryOk ==> Spawned(s, r.sched, s.nextHandle, TaskRecord(p, LaunchAffinity(out, mask), HeapAllocated))
    ensures memoryOk && out.Slot? ==> r.out == Slot(Handle(s.nextHandle))
    ensures r.sched.nextHandle == s.nextHandle + (if memoryOk then 1 else 0)
  {
    var c := TaskCreate(s, p, out, memoryOk);
    if c.status == Pass && c.out.Slot? && c.out.handle.Handle? then
      Creation(c.status, CoreAffinitySet(c.sched, c.out.handle.id, mask), c.out)
    else
      c
  }

  /** The parameters a role launcher passes for role `k`. */
  function RoleParams(k: TaskKind, code: EntryPoint, name: string, arg: TaskArg): TaskParams
  {
    TaskParams(code, name, StackSize(k), arg, Priority(k))
  }

  /**
   What every role launcher promises: the call succeeds exactly when memory
   is available, fails without any change, and on success adds one task
   that carries the caller's entry point, name and argument together with
   the role's stack size, priority and (when a handle variable was given)
   the role's affinity mask, with the new task's handle written back into
   that variable.
   */
  predicate LaunchedAsRole(s: Scheduler, r: Creation, k: TaskKind, code: EntryPoint, name: string,
                           arg: TaskArg, out: HandleOut, memoryOk: bool)
  {
    && (r.status == Pass <==> memoryOk)
    && (!memoryOk ==> r.sched == s && r.out == out)
    && (memoryOk ==>
          Spawned(s, r.sched, s.nextHandle,
                  TaskRecord(TaskParams(code, name, StackSize(k), arg, Priority(k)),
                             LaunchAffinity(out, CoreAffinity(k)), HeapAllocated)))
    && (memoryOk && out.Slot? ==> r.out == Slot(Handle(s.nextHandle)))
  }

  /** `xCreateSensorTask`. */
  function CreateSensorTask(s: Scheduler, code: EntryPoint, name: string, arg: TaskArg,
                            out: HandleOut, memoryOk: bool): (r: Creation)
    requires s.Valid()
    ensures r.sched.Valid()
    ensures LaunchedAsRole(s, r, SensorMonitor, code, name, arg, out, memoryOk)
  {
    TaskCreateWithAffinity(s, RoleParams(SensorMonitor, code, name, arg), out,
                           CoreAffinity(SensorMonitor), memoryOk)
  }

  /** `xCreateCommunicationTask`. */
  function CreateCommunicationTask(s: Scheduler, code: EntryPoint, name: string, arg: TaskArg,
                                   out: HandleOut, memoryOk: bool): (r: Creation)
    requires s.Valid()
    ensures r.sched.Valid()
    ensures LaunchedAsRole(s, r, Communication, code, name, arg, out, memoryOk)
  {
    TaskCreateWithAffinity(s, RoleParams(Communication, code, name, arg), out,
                           CoreAffinity(Communication), memoryOk)
  }

  /** `xCreateAlarmTask`. */
  function CreateAlarmTask(s: Scheduler, code: EntryPoint, name: string, arg: TaskArg,
                           out: HandleOut, memoryOk: bool): (r: Creation)
    requires s.Valid()
    ensures r.sched.Valid()
    ensures LaunchedAsRole(s, r, AlarmControl, code, name, arg, out, memoryOk)
  {
    TaskCreateWithAffinity(s, RoleParams(AlarmControl, code, name, arg), out,
                           CoreAffinity(AlarmControl), memoryOk)
  }

  /**
   A successful launch through a role launcher with a handle variable leaves
   the new task pinned to exactly the role's partition core, never to the
   any-core default; without a handle variable the task keeps the default.
   */
  lemma RoleLaunchPinsToPartitionCore(s: Scheduler, r: Creation, k: TaskKind, code: EntryPoint,
                                      name: string, arg: TaskArg, out: HandleOut)
    requires s.Valid()
    requires LaunchedAsRole(s, r, k, code, name, arg, out, true)
    ensures s.nextHandle in r.sched.tasks
    ensures out.Slot? ==> r.sched.tasks[s.nextHandle].affinity.Pinned?
    ensures out.Slot? ==> Cores(r.sched.tasks[s.nextHandle].affinity.mask) == (if TimeCritical(k) then {0} else {1})
    ensures out.Slot? ==> r.sched.tasks[s.nextHandle].affinity.mask != CORE_AFFINITY_ANY
    ensures out.NoSlot? ==> r.sched.tasks[s.nextHandle].affinity == NoAffinity
  {
  }

  /** The console messages `xValidateSMPConfiguration` prints that carry a finding. */
  datatype Diagnostic =
    | WrongCoreCount(configured: int)
    | AffinityDisabled
    | InvalidCore(core: nat)
    | LowMemory(freeBytes: nat)

  datatype Validation = Validation(passed: bool, diagnostics: seq<Diagnostic>)

  /** The minimum free heap below which validation warns. */
  const LOW_HEAP_BYTES: nat := 8192

  /**
   `xValidateSMPConfiguration`, over the configured core count and
   affinity flag, the core the caller runs on and the free heap size. A
   disabled affinity flag is reported as a warning but still fails the
   check; low memory is only a warning.
   */
  function ValidateSmpConfiguration(cores: int, useCoreAffinity: int, currentCore: nat, freeHeap: nat): (v: Validation)
    ensures v.passed <==> cores == 2 && useCoreAffinity != 0 && currentCore < cores
    ensures LowMemory(freeHeap) in v.diagnostics <==> freeHeap < LOW_HEAP_BYTES
    ensures WrongCoreCount(cores) in v.diagnostics <==> cores != 2
    ensures AffinityDisabled in v.diagnostics <==> useCoreAffinity == 0
    ensures InvalidCore(currentCore) in v.diagnostics <==> currentCore >= cores
  {
    var d1 := if cores != 2 then [WrongCoreCount(cores)] else [];
    var d2 := if useCoreAffinity == 0 then [AffinityDisabled] else [];
    var d3 := if currentCore >= cores then [InvalidCore(currentCore)] else [];
    var d4 := if freeHeap < LOW_HEAP_BYTES then [LowMemory(freeHeap)] else [];
    // The verdict starts true and each failed check clears it.
    var afterCores := if cores != 2 then false else true;
    var afterAffinity := if useCoreAffinity == 0 then false else afterCores;
    var afterCore := if currentCore >= cores then false else afterAffinity;
    Validation(afterCore, d1 + d2 + d3 + d4)
  }

  /** The free heap size never decides the verdict. */
  lemma ValidationIgnoresHeap(cores: int, flag: int, core: nat, heap1: nat, heap2: nat)
    ensures ValidateSmpConfiguration(cores, flag, core, heap1).passed
            == ValidateSmpConfiguration(cores, flag, core, heap2).passed
  {
  }

  /** With this build's constants the check passes exactly when the caller reports core 0 or 1. */
  lemma ConfiguredBuildValidates(core: nat, heap: nat)
    ensures ValidateSmpConfiguration(NUMBER_OF_CORES, USE_CORE_AFFINITY, core, heap).passed <==> core < 2
  {
  }

  /** The parameters of SMP test task `n` (0 or 1). */
  function SmpTestParams(n: nat): TaskParams
    requires n < 2
  {
    if n == 0 then TaskParams("vSMPTestTask", "SMPTest_Core0", 256, TextArg("Core0_Test"), IDLE_PRIORITY + 1)
    else TaskParams("vSMPTestTask", "SMPTest_Core1", 256, TextArg("Core1_Test"), IDLE_PRIORITY + 1)
  }

  datatype TestLaunch = TestLaunch(ok: bool, sched: Scheduler)

  /**
   `xCreateSMPTestTasks`: launch the core 0 test task, then the core 1
   test task whatever the first outcome, each with its own (initially NULL)
   handle variable. Reports success exactly when both launches pass.
   */
  function CreateSmpTestTasks(s: Scheduler, memory0: bool, memory1: bool): (r: TestLaunch)
    requires s.Valid()
    ensures r.sched.Valid()
    ensures r.ok <==> memory0 && memory1
    ensures |r.sched.tasks| == |s.tasks| + (if memory0 then 1 else 0) + (if memory1 then 1 else 0)
    ensures r.sched.running == s.running
    ensures memory0 ==> s.nextHandle in r.sched.tasks && r.sched.tasks[s.nextHandle] == TaskRecord(SmpTestParams(0), Pinned(CORE_AFFINITY_SENSORS), HeapAllocated)
    ensures memory1 ==> var id1 := if memory0 then s.nextHandle + 1 else s.nextHandle;
                        id1 in r.sched.tasks && r.sched.tasks[id1] == TaskRecord(SmpTestParams(1), Pinned(CORE_AFFINITY_COMMUNICATION), HeapAllocated)
    ensures forall id :: id in s.tasks ==> id in r.sched.tasks && r.sched.tasks[id] == s.tasks[id]
  {
    var c0 := TaskCreateWithAffinity(s, SmpTestParams(0), Slot(NullHandle), CORE_AFFINITY_SENSORS, memory0);
    var c1 := TaskCreateWithAffinity(c0.sched, SmpTestParams(1), Slot(NullHandle), CORE_AFFINITY_COMMUNICATION, memory1);
    TestLaunch(c0.status == Pass && c1.status == Pass, c1.sched)
  }

  /** A failed first launch does not stop the second: with memory for it, the core 1 test task exists. */
  lemma SmpTestSecondLaunchIndependent(s: Scheduler, memory1: bool)
    requires s.Valid()
    ensures var r := CreateSmpTestTasks(s, false, memory1);
            !r.ok && (memory1 <==> s.nextHandle in r.sched.tasks)
  {
  }
}
