# FACP iZone: task partitioning and supervision, modelled in Dafny

This project models the task-scheduling and fail-safe supervision layer of the
FACP iZone fire-alarm control panel firmware. The firmware runs FreeRTOS SMP on
a dual-core RP2040. The model covers:

- **Role table** (`FreeRTOSConfig`, from `firmware/config/FreeRTOSConfig.h`).
  The six application roles (watchdog supervisor, sensor monitor, alarm control,
  communication, status LED, diagnostics) form a `TaskKind` datatype. Total
  functions give each role its priority, its stack size in words and its
  core-affinity mask. Lemmas state the table's invariants: the priorities are
  distinct, in range and ordered by urgency; every stack is at least the
  minimal stack size; and the two partition masks are disjoint. A separate
  lemma records that the kernel's timer service task runs at the same priority
  as the watchdog role.
- **Abstract kernel** (`Kernel`). The kernel is a map from handle ids to task
  records, plus the next handle id and a "scheduler running" flag.
  `xTaskCreate` is a step that either passes or fails. Whether the allocation
  succeeds is a parameter (`memoryOk`) that the environment chooses. A new task
  starts with the kernel's any-core default affinity (`NoAffinity`).
  `vTaskCoreAffinitySet` updates one entry of the map. Starting the scheduler
  adds the kernel's own idle, passive-idle and timer tasks, placed in the
  static buffers that the application's memory callbacks hand out.
- **SMP utilities** (`SmpConfig`, from `firmware/src/smp_config.c`):
  - the affinity-aware launcher and the three role launchers;
  - the runtime SMP configuration check, over the core count, the affinity
    flag, the current core and the free heap;
  - the creation of the two SMP test tasks.
- **System initialisation** (`SystemInit`, from `firmware/src/system_init.c`):
  - the status variable with its setter and getter;
  - the default configuration;
  - the self test, with the allocation outcome as a parameter;
  - `hal_init`, `system_shutdown` and the two fault hooks;
  - the three static-memory callbacks for the idle, timer and passive-idle
    tasks.
- **Boot and supervision** (`Boot`, from `firmware/src/main.c`):
  - `main`'s create-create-start sequence, which returns -1 at the first
    failure;
  - one cycle of the system monitor loop;
  - an event machine over the `SystemInit` operations. In it, a fault hook
    halts the whole panel, which is what the hooks' comments expect;
  - a two-core variant of the event machine, as the code is written. In it the
    malloc-failed hook stops only the core that runs it. A stack overflow
    stops both cores, because its hook runs with the kernel locks held (see
    the `Boot.CoreStep` line under "## Left out").

The firmware's global variables become one immutable `System` value that each
operation takes and returns. In the single-machine view, the hooks' endless
loops with interrupts disabled become the `halted` flag, and a step on a
halted system changes nothing. In the two-core view, `DualSystem` records
which cores are stuck in a hook.

Where the code's own comments promise more than the code does, the model
follows the code:

- The launcher is documented as wrapping `xTaskCreate` "to include core
  affinity assignment", and the handle parameter "can be NULL"
  (`firmware/include/smp_config.h`, lines 37-50). The code sets the affinity
  only when a handle variable is passed (`firmware/src/smp_config.c`, line 45).
  With a NULL handle pointer the task keeps the any-core default, against the
  core split the header lays out at lines 22-35.
- The monitor task is described as doing "watchdog and health checks"
  (`firmware/src/main.c`, lines 71-75), and line 93 says "Perform basic health
  checks". The check at line 94 is only a `printf` of the free heap. Nothing
  gates the watchdog refresh at line 91.
- A disabled core-affinity flag is printed as a "WARNING"
  (`firmware/src/smp_config.c`, line 169), yet line 170 fails the validation.
  Low free heap only prints a warning.

## Model

| member | source | states |
|---|---|---|
| FreeRTOSConfig.Priority | firmware/config/FreeRTOSConfig.h:103-108 | every role's priority lies strictly above the idle priority and below configMAX_PRIORITIES |
| FreeRTOSConfig.StackSize | firmware/config/FreeRTOSConfig.h:111-116 | every role's stack budget is at least configMINIMAL_STACK_SIZE (256 words) |
| FreeRTOSConfig.CoreAffinity | firmware/config/FreeRTOSConfig.h:119-124 | every role's mask is non-empty, a subset of CORE_AFFINITY_ANY and not equal to it |
| FreeRTOSConfig.PrioritiesDistinctAndInRange | firmware/config/FreeRTOSConfig.h:103-108 | no two roles share a priority, and all lie in [0, configMAX_PRIORITIES) |
| FreeRTOSConfig.PriorityOrderMatchesRank | firmware/config/FreeRTOSConfig.h:103-108 | a role has a higher priority than another exactly when it comes earlier in Watchdog > SensorMonitor > AlarmControl > Communication > StatusLed > Diagnostics |
| FreeRTOSConfig.PartitionByCriticality | firmware/config/FreeRTOSConfig.h:119-124 | time-critical roles (watchdog, sensor, alarm) are pinned to core 0 only and the others to core 1 only |
| FreeRTOSConfig.PartitionMasksDisjoint | firmware/config/FreeRTOSConfig.h:71-73 | the sensor and communication masks are disjoint, neither equals the any-core mask, and together they make up both cores |
| FreeRTOSConfig.TimerSharesWatchdogPriority | firmware/config/FreeRTOSConfig.h:59 | the timer daemon's priority equals the watchdog role's, and every other role is below it, so priorities are not distinct once the timer task is counted |
| Kernel.TaskCreate | firmware/src/smp_config.c:35-42 | creation passes exactly when memory is available; on failure nothing changes; on success exactly one task with the requested parameters and the default affinity is added, and its handle is written back when a handle variable was given |
| Kernel.TaskCreateCount | firmware/src/smp_config.c:35-42 | a creation adds exactly one task when it passes and none when it fails |
| Kernel.CoreAffinitySet | firmware/src/smp_config.c:47 | only the named task's affinity changes, to exactly the given mask |
| Kernel.StartScheduler | firmware/src/system_init.c:205-255 | the scheduler runs exactly when the start succeeds; a successful start keeps every existing task and adds exactly three: two idle tasks at the idle priority and the timer task at the timer priority, each in the buffers its callback handed out and with the stack size that callback reported |
| SmpConfig.TaskCreateWithAffinity | firmware/src/smp_config.c:22-54 | returns exactly the creation's result; on failure the kernel is unchanged; on success the new task is pinned to exactly the given mask when a handle variable was given, and otherwise keeps the default affinity |
| SmpConfig.CreateSensorTask | firmware/src/smp_config.c:59-75 | forwards the caller's entry point, name, argument and handle variable; uses the sensor role's stack, priority and mask; fails with no change; writes the new handle back into a given handle variable |
| SmpConfig.CreateCommunicationTask | firmware/src/smp_config.c:80-96 | forwards the caller's arguments; uses the communication role's stack, priority and mask; fails with no change; writes the new handle back into a given handle variable |
| SmpConfig.CreateAlarmTask | firmware/src/smp_config.c:101-117 | forwards the caller's arguments; uses the alarm role's stack, priority and mask; fails with no change; writes the new handle back into a given handle variable |
| SmpConfig.RoleLaunchPinsToPartitionCore | firmware/src/smp_config.c:59-117 | a successful role launch with a handle variable pins the task to exactly its partition core, never to any-core; without one the task stays at the default |
| SmpConfig.ValidateSmpConfiguration | firmware/src/smp_config.c:153-202 | passes iff cores == 2, affinity is enabled and the current core is below the core count; each failed check and a heap below 8192 bytes produce their own diagnostic |
| SmpConfig.ValidationIgnoresHeap | firmware/src/smp_config.c:183-190 | the free heap size never changes the verdict |
| SmpConfig.ConfiguredBuildValidates | firmware/src/smp_config.c:159-181 | with this build's constants the check passes exactly when the current core is 0 or 1 |
| SmpConfig.CreateSmpTestTasks | firmware/src/smp_config.c:236-278 | both launches are attempted; reports success iff both pass; task 0 is pinned to 0x01 and task 1 to 0x02, both at priority idle+1 with 256 words; existing tasks are kept |
| SmpConfig.SmpTestSecondLaunchIndependent | firmware/src/smp_config.c:242-270 | a failed first launch does not prevent the second one |
| SystemInit.ConfigInit | firmware/src/system_init.c:35-50 | zone count 4 (within MAX_ZONES), address 0x20, watchdog enabled, and all MAX_ZONES thresholds 512 |
| SystemInit.SetStatus | firmware/src/system_init.c:65-69 | the getter then returns the new status, and nothing else in the state changes |
| SystemInit.GetStatus | firmware/src/system_init.c:56-59 | reads the stored status and nothing else; SetStatus, StatusGetAfterSet and StatusIsLastWrite fix what it returns, and writing back what it returns changes nothing |
| SystemInit.StatusGetAfterSet | firmware/src/system_init.c:22-69 | the status at reset is INIT, a read returns the value just written, and writing back the value just read leaves the system unchanged |
| SystemInit.SelfTest | firmware/src/system_init.c:91-120 | fails only when the 1024-byte allocation fails; feeds the watchdog once when it passes with the watchdog enabled |
| SystemInit.HalInit | firmware/src/system_init.c:126-144 | always installs the default configuration; on self-test failure returns false with the status unchanged; otherwise sets NORMAL, returns true and has fed the watchdog once |
| SystemInit.Shutdown | firmware/src/system_init.c:149-163 | sets FAULT but does not halt |
| SystemInit.MallocFailedHook | firmware/src/system_init.c:170-182 | sets FAULT and halts; configuration and watchdog count are untouched |
| SystemInit.StackOverflowHook | firmware/src/system_init.c:189-203 | sets FAULT and halts, whatever the offending task |
| SystemInit.IdleTaskMemory | firmware/src/system_init.c:211-218 | hands out declared, distinct buffers and reports the stack array's real length, configMINIMAL_STACK_SIZE |
| SystemInit.TimerTaskMemory | firmware/src/system_init.c:226-233 | hands out declared, distinct buffers and reports the stack array's real length, configTIMER_TASK_STACK_DEPTH |
| SystemInit.PassiveIdleTaskMemory | firmware/src/system_init.c:242-255 | needs 0 <= index < configNUMBER_OF_CORES - 1 because nothing checks it; hands out the slot's own buffers and reports configMINIMAL_STACK_SIZE, the slot's length |
| SystemInit.StaticMemoryDisjoint | firmware/src/system_init.c:26-30 | the idle, timer and passive-idle answers share no buffer, for every admissible passive-idle index |
| SystemInit.OnePassiveIdleSlot | firmware/src/system_init.c:248-249 | on the two-core build the only admissible passive-idle index is 0 |
| Boot.MainBoot | firmware/src/main.c:152-212 | LED creation failure returns -1 with the kernel untouched; monitor creation failure returns -1 with only the LED task created and the scheduler not started; once both creations pass, main never returns: it runs the scheduler exactly when the start succeeds and otherwise ends in the fault-LED loop; existing tasks are kept; main never returns anything but -1 |
| Boot.CreateBootTasks | firmware/src/main.c:165-193 | the monitor is created only after the LED task; success exactly when both creations pass, with the LED task and then the monitor task under consecutive handles |
| Boot.StartFromMain | firmware/src/main.c:195-209 | the scheduler runs exactly when the start succeeds, otherwise main is in the fault-LED loop; existing tasks are kept; on success the three kernel tasks sit in the idle, passive-idle (slot 0) and timer callbacks' memory |
| Boot.StartUsesStaticPool | firmware/src/system_init.c:205-255 | after a successful start the idle, passive-idle and timer tasks live in declared buffers that none of them shares, each with a stack depth equal to its stack buffer's length |
| Boot.RunningSystemUsesStaticPool | firmware/src/main.c:181-198 | once main has started the scheduler, the kernel's three tasks follow the two application tasks in the static pool, and the timer task runs at the same priority as the system monitor |
| Boot.BootTasksUseRoleTableButNoPinning | firmware/src/main.c:166-188 | the LED task gets the status-LED stack and priority, the monitor the watchdog stack and priority, and neither gets its role's affinity mask |
| Boot.MonitorCycle | firmware/src/main.c:88-101 | each cycle refreshes the watchdog exactly once and changes neither status nor configuration |
| Boot.MonitorRefreshesEveryCycle | firmware/src/main.c:88-101 | over any sequence of heap readings the watchdog is refreshed once per cycle, so no health check gates the refresh |
| Boot.HaltIsTerminal | firmware/src/system_init.c:178-181 | no sequence of events changes a halted system |
| Boot.FaultHookIsFinal | firmware/src/system_init.c:170-203 | when a hook halts the whole panel, after either hook the status stays FAULT whatever follows, and the watchdog is never refreshed again |
| Boot.CoreStep | firmware/src/system_init.c:170-203 | on two cores, the malloc-failed hook stops only the core that ran it and sets FAULT; a stack-overflow hook stops both cores; a monitor tick on a running core refreshes the watchdog once; a stopped core does nothing |
| Boot.MonitorTicksOnLiveCore | firmware/src/main.c:88-101 | on a core that is not stopped, every monitor cycle refreshes the watchdog, and neither the status nor the set of stopped cores changes |
| Boot.MonitorOutlivesMallocHook | firmware/src/system_init.c:170-182 | after the malloc-failed hook on core 1 the status is FAULT, only core 1 is stopped, and the unpinned monitor on core 0 still refreshes the watchdog once per cycle |
| Boot.ShutdownIsNotTerminal | firmware/src/system_init.c:149-163 | FAULT set by shutdown leaves the system running, and a later status write takes effect |
| Boot.StatusIsLastWrite | firmware/src/system_init.c:56-69 | after any non-empty run of status writes, the getter returns the last value written |

## Left out

- Kernel internals are left out: preemptive scheduling, run queues, execution
  on two cores at once, and the heap_4 allocator. Task creation is a pass/fail
  step whose outcome is a parameter. The kernel clamps priorities at or above
  configMAX_PRIORITIES; this is not modelled, and every priority used here is
  below that bound.
- The window between creating a task and setting its affinity, in which the
  new task may already run on either core, is left out. It is a concurrency
  property and the model is sequential.
- With configUSE_MALLOC_FAILED_HOOK set, a failed kernel allocation calls the
  malloc-failed hook before `xTaskCreate` or the self test could report the
  failure. The model keeps the functions' own failure branches, with the
  allocation outcome as a parameter, and models the hook separately.
- GPIO and LED output, `stdio_init_all`, `sleep_ms`, every `printf`, and
  `prvSetupHardware` are hardware and console I/O and are left out. The
  watchdog hardware is only a refresh counter. `watchdog_enable` and the
  reboot-cause check are left out.
- `vSMPTestTask` and `prvLedBlinkTask` are left out. They are endless
  print or toggle loops with no result to state.
- `ulGetCurrentCore` and `xPortGetFreeHeapSize` are not modelled. Their values
  are parameters of the validation and of the monitor cycle.
- `vPrintSMPStatus` prints only and is left out.
- `system_get_version_string` is left out. It is a libc `snprintf` with
  truncation.
- `firmware/src/freertos_config.c` is left out: it holds empty port stubs, a
  timer passthrough and an assertion halt loop.
- `main` after a failed scheduler start blinks the fault LED forever. This is
  the `StartFailedLoop` outcome; the blinking itself is not modelled.
- Non-termination is not modelled as such. The hooks' halt loops are the
  terminal `halted` flag, or a core in `DualSystem.stopped`.
- Boot.FaultHookIsFinal: this holds for `Step`, where a hook halts the whole
  panel. The code as written halts only the calling core
  (`portDISABLE_INTERRUPTS` is per core), so this is the intended behaviour and
  not the code's. `Boot.MonitorOutlivesMallocHook` states what the code does.
- Boot.CoreStep: a stack overflow is reported from inside the kernel's context
  switch, which holds the scheduler locks. The other core therefore stops at
  its next scheduling point. The model stops it at once. Kernel locks are not
  modelled.
- Kernel.StartScheduler: the kernel's task names, which core each idle task
  is bound to, and partial creation when the start fails part-way are kernel
  internals and are not modelled. A failed start leaves the task set as it
  was.

## Findings

| source | as written | input that shows it | evidently intended | confidence | as-written member | corrected member |
|---|---|---|---|---|---|---|
| firmware/src/system_init.c:170-182 | the malloc-failed hook sets FAULT, disables interrupts and spins, which stops only the core that called it | a heap allocation fails on core 1 while the system monitor, which has no core pinning, runs on core 0 | the comment at line 180 expects the watchdog to reset the panel, so no watchdog refresh should follow a fault hook | medium, not executed | Boot.MonitorOutlivesMallocHook | Boot.FaultHookIsFinal |
