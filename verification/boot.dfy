/**
 The firmware entry point and its supervision: `main` creates the status
 LED task and the system monitor task and starts the scheduler, giving up
 with -1 at the first failed creation; the monitor task refreshes the
 hardware watchdog once per cycle.

 The life of the system after start-up is a sequence of `Event`s applied to
 the `System` state. In `Step` a fault hook halts the whole panel, after
 which no event has any effect: the status stays FAULT and the watchdog is
 never refreshed again. That is the behaviour the hooks' comments rely on for
 the watchdog reset. `CoreStep` models the firmware as written: the
 malloc-failed hook stops only the core that runs it, while a stack overflow
 stops both cores, because that hook runs with the kernel locks held.
 `MonitorOutlivesMallocHook` shows that after the malloc-failed hook the
 other core keeps refreshing the watchdog.
 */
module Boot {
  import opened FreeRTOSConfig
  import opened Kernel
  import opened SystemInit

  /** The status LED blink task as `main` creates it. */
  const LedTask: TaskParams :=
    TaskParams("prvLedBlinkTask", "LED_Blink", StackSize(StatusLed), NoArg, Priority(StatusLed))

  /** The system monitor task as `main` creates it. */
  const MonitorTask: TaskParams :=
    TaskParams("prvSystemMonitorTask", "SysMonitor", StackSize(Watchdog), NoArg, Priority(Watchdog))

  /**
   How `main` ends: it returns an error code, or the scheduler runs and
   never gives control back, or the scheduler fails to start and `main`
   blinks the fault LED forever.
   */
  datatype BootOutcome =
    | Returned(code: int, sched: Scheduler)
    | SchedulerRunning(sched: Scheduler)
    | StartFailedLoop(sched: Scheduler)

  /**
   `main` after hardware set-up. The environment decides whether each
   creation finds memory and whether the scheduler starts. Both tasks go
   through plain `xTaskCreate`, with the static handle variables (initially
   NULL) as out-parameters, so neither is given an affinity mask. Starting
   the scheduler makes the kernel create its idle, passive-idle and timer
   tasks in the memory the application's callbacks hand out.
   */
  function MainBoot(s: Scheduler, ledMemory: bool, monitorMemory: bool, startOk: bool): (r: BootOutcome)
    requires s.Valid() && !s.running
    ensures r.sched.Valid()
    ensures !ledMemory ==> r == Returned(-1, s)
    ensures ledMemory && !monitorMemory ==>
              r.Returned? && r.code == -1 && !r.sched.running
              && Spawned(s, r.sched, s.nextHandle, TaskRecord(LedTask, NoAffinity, HeapAllocated))
    ensures ledMemory && monitorMemory ==>
              var n := s.nextHandle;
              && !r.Returned?
              && (r.SchedulerRunning? <==> startOk)
              && (r.StartFailedLoop? <==> !startOk)
              && KeepsTasks(s, r.sched)
              && n in r.sched.tasks && r.sched.tasks[n] == TaskRecord(LedTask, NoAffinity, HeapAllocated)
              && n + 1 in r.sched.tasks && r.sched.tasks[n + 1] == TaskRecord(MonitorTask, NoAffinity, HeapAllocated)
              && r.sched.nextHandle == n + (if startOk then 5 else 2)
    ensures r.Returned? ==> r.code == -1
    ensures r.sched.running ==> ledMemory && monitorMemory && startOk
  {
    var app := CreateBootTasks(s, ledMemory, monitorMemory);
    if !app.ok then
      Returned(-1, app.sched)
    else
      var started := StartFromMain(app.sched, startOk);
      KeepsTasksTransitive(s, app.sched, started.sched);
      started
  }

  /** The application tasks `main` has created, and whether both creations passed. */
  datatype BootTasks = BootTasks(ok: bool, sched: Scheduler)

  /**
   The creation half of `main`: the LED task, then, only if that passed,
   the monitor task.
   */
  function CreateBootTasks(s: Scheduler, ledMemory: bool, monitorMemory: bool): (r: BootTasks)
    requires s.Valid()
    ensures r.sched.Valid() && r.sched.running == s.running
    ensures r.ok <==> ledMemory && monitorMemory
    ensures !ledMemory ==> r.sched == s
    ensures ledMemory && !monitorMemory ==>
              Spawned(s, r.sched, s.nextHandle, TaskRecord(LedTask, NoAffinity, HeapAllocated))
    ensures r.ok ==>
              var n := s.nextHandle;
              && KeepsTasks(s, r.sched)
              && r.sched.nextHandle == n + 2
              && n in r.sched.tasks && r.sched.tasks[n] == TaskRecord(LedTask, NoAffinity, HeapAllocated)
              && n + 1 in r.sched.tasks && r.sched.tasks[n + 1] == TaskRecord(MonitorTask, NoAffinity, HeapAllocated)
  {
    var led := TaskCreate(s, LedTask, Slot(NullHandle), ledMemory);
    if led.status != Pass then
      BootTasks(false, led.sched)
    else
      var monitor := TaskCreate(led.sched, MonitorTask, Slot(NullHandle), monitorMemory);
      if monitor.status == Pass then
        SpawnKeepsTasks(s, led.sched, s.nextHandle, TaskRecord(LedTask, NoAffinity, HeapAllocated));
        SpawnKeepsTasks(led.sched, monitor.sched, s.nextHandle + 1, TaskRecord(MonitorTask, NoAffinity, HeapAllocated));
        KeepsTasksTransitive(s, led.sched, monitor.sched);
        BootTasks(true, monitor.sched)
      else
        BootTasks(false, monitor.sched)
  }

  /**
   The tail of `main`: start the scheduler with the memory the static
   callbacks hand out, and blink the fault LED forever if it returns.
   */
  function StartFromMain(s: Scheduler, startOk: bool): (r: BootOutcome)
    requires s.Valid()
    ensures r.sched.Valid()
    ensures r.SchedulerRunning? <==> startOk
    ensures r.StartFailedLoop? <==> !startOk
    ensures r.sched.running <==> startOk
    ensures KeepsTasks(s, r.sched)
    ensures r.sched.nextHandle == s.nextHandle + (if startOk then 3 else 0)
    ensures startOk ==>
              && HoldsKernelTask(r.sched, s.nextHandle, IdleTaskMemory(), IDLE_PRIORITY)
              && HoldsKernelTask(r.sched, s.nextHandle + 1, PassiveIdleTaskMemory(0), IDLE_PRIORITY)
              && HoldsKernelTask(r.sched, s.nextHandle + 2, TimerTaskMemory(), TIMER_TASK_PRIORITY)
  {
    var started := StartScheduler(s, IdleTaskMemory(), PassiveIdleTaskMemory(0), TimerTaskMemory(), startOk);
    if started.running then SchedulerRunning(started) else StartFailedLoop(started)
  }

  /** A kernel task placed in buffers the firmware declares, with the stack depth the stack buffer really has. */
  predicate PlacedInDeclaredBuffers(rec: TaskRecord)
  {
    && rec.storage.StaticStorage?
    && Declared(rec.storage.tcb) && Declared(rec.storage.stack)
    && rec.storage.tcb != rec.storage.stack
    && rec.params.stackDepth == DeclaredLength(rec.storage.stack)
  }

  /**
   Tasks `n`, `n + 1` and `n + 2` are the kernel's idle, passive-idle and
   timer tasks, each in declared static buffers that no other of them uses,
   with a stack depth equal to its stack buffer's length; both idle tasks
   run at the idle priority.
   */
  predicate StaticPoolInUse(sched: Scheduler, n: nat)
  {
    && n in sched.tasks && n + 1 in sched.tasks && n + 2 in sched.tasks
    && var idle, passive, timer := sched.tasks[n], sched.tasks[n + 1], sched.tasks[n + 2];
    && PlacedInDeclaredBuffers(idle) && PlacedInDeclaredBuffers(passive) && PlacedInDeclaredBuffers(timer)
    && {idle.storage.tcb, idle.storage.stack} !! {passive.storage.tcb, passive.storage.stack}
    && {idle.storage.tcb, idle.storage.stack} !! {timer.storage.tcb, timer.storage.stack}
    && {passive.storage.tcb, passive.storage.stack} !! {timer.storage.tcb, timer.storage.stack}
    && idle.params.priority == IDLE_PRIORITY && passive.params.priority == IDLE_PRIORITY
  }

  /**
   A successful start places the kernel's own tasks in the static pool the
   callbacks hand out, with the timer service task at the timer priority.
   */
  lemma StartUsesStaticPool(s: Scheduler)
    requires s.Valid()
    ensures StaticPoolInUse(StartFromMain(s, true).sched, s.nextHandle)
    ensures StartFromMain(s, true).sched.tasks[s.nextHandle + 2].params.priority == TIMER_TASK_PRIORITY
  {
  }

  /**
   Once `main` has started the scheduler, the kernel's three own tasks
   follow the two application tasks in the static pool, and the timer
   service task runs at the same priority as the system monitor.
   */
  lemma RunningSystemUsesStaticPool(s: Scheduler)
    requires s.Valid() && !s.running
    ensures var r := MainBoot(s, true, true, true);
            && r.SchedulerRunning?
            && StaticPoolInUse(r.sched, s.nextHandle + 2)
            && r.sched.tasks[s.nextHandle + 4].params.priority == r.sched.tasks[s.nextHandle + 1].params.priority
  {
  }

  /**
   The two tasks `main` creates carry the role table's stack sizes and
   priorities for the status indicator and the watchdog supervisor, but not
   the role table's core pinning: the monitor runs at the watchdog priority
   with the kernel's any-core default.
   */
  lemma BootTasksUseRoleTableButNoPinning(s: Scheduler, startOk: bool)
    requires s.Valid() && !s.running
    ensures var r := MainBoot(s, true, true, startOk);
            var led, mon := r.sched.tasks[s.nextHandle], r.sched.tasks[s.nextHandle + 1];
            && led.params.stackDepth == StackSize(StatusLed) && led.params.priority == Priority(StatusLed)
            && mon.params.stackDepth == StackSize(Watchdog) && mon.params.priority == Priority(Watchdog)
            && mon.affinity != Pinned(CoreAffinity(Watchdog))
            && led.affinity != Pinned(CoreAffinity(StatusLed))
  {
  }

  /**
   One pass of the system monitor loop: refresh the watchdog, then report
   the free heap (the reading is printed only) and light the power LED.
   */
  function MonitorCycle(sys: System, freeHeap: nat): (r: System)
    ensures r.watchdogFeeds == sys.watchdogFeeds + 1
    ensures r.status == sys.status && r.config == sys.config && r.halted == sys.halted
  {
    sys.(watchdogFeeds := sys.watchdogFeeds + 1)
  }

  /** Everything that can happen to the firmware's global state once it runs. */
  datatype Event =
    | SetStatusEvent(status: Status)
    | ShutdownEvent
    | HalInitEvent(allocOk: bool)
    | MallocFailed
    | StackOverflow(task: TaskHandle, taskName: string)
    | MonitorTick(freeHeap: nat)

  /** Apply one event; a halted processor runs nothing. */
  function Step(sys: System, e: Event): System
  {
    if sys.halted then sys
    else
      match e
      case SetStatusEvent(st) => SetStatus(sys, st)
      case ShutdownEvent => Shutdown(sys)
      case HalInitEvent(ok) => HalInit(sys, ok).sys
      case MallocFailed => MallocFailedHook(sys)
      case StackOverflow(t, n) => StackOverflowHook(sys, t, n)
      case MonitorTick(h) => MonitorCycle(sys, h)
  }

  /** Apply events in order. */
  function Run(sys: System, es: seq<Event>): System
    decreases |es|
  {
    if es == [] then sys else Run(Step(sys, es[0]), es[1..])
  }

  lemma RunCons(sys: System, e: Event, es: seq<Event>)
    ensures Run(sys, [e] + es) == Run(Step(sys, e), es)
  {
    assert ([e] + es)[0] == e;
    assert ([e] + es)[1..] == es;
  }

  /** A halted system is terminal: no sequence of events changes it. */
  lemma {:induction false} HaltIsTerminal(sys: System, es: seq<Event>)
    requires sys.halted
    ensures Run(sys, es) == sys
    decreases |es|
  {
    if es != [] {
      HaltIsTerminal(Step(sys, es[0]), es[1..]);
    }
  }

  /**
   With a fault hook that halts the whole panel (`Step`), either hook ends
   the system's life: whatever follows, the status stays FAULT and the
   watchdog is never refreshed again.
   */
  lemma FaultHookIsFinal(sys: System, hook: Event, rest: seq<Event>)
    requires !sys.halted
    requires hook.MallocFailed? || hook.StackOverflow?
    ensures Run(sys, [hook] + rest).status == Fault
    ensures Run(sys, [hook] + rest).halted
    ensures Run(sys, [hook] + rest).watchdogFeeds == sys.watchdogFeeds
  {
    RunCons(sys, hook, rest);
    HaltIsTerminal(Step(sys, hook), rest);
  }

  /** FAULT set by `system_shutdown` is not terminal: a later status write takes effect. */
  lemma ShutdownIsNotTerminal(sys: System, st: Status)
    requires !sys.halted
    ensures Run(sys, [ShutdownEvent]).status == Fault
    ensures !Run(sys, [ShutdownEvent]).halted
    ensures Run(sys, [ShutdownEvent, SetStatusEvent(st)]).status == st
  {
    RunCons(sys, ShutdownEvent, [SetStatusEvent(st)]);
    assert [ShutdownEvent] + [SetStatusEvent(st)] == [ShutdownEvent, SetStatusEvent(st)];
  }

  /** The status writes of a status-only history. */
  function StatusWrites(sts: seq<Status>): (es: seq<Event>)
    ensures |es| == |sts|
  {
    if sts == [] then [] else [SetStatusEvent(sts[0])] + StatusWrites(sts[1..])
  }

  /** While the system runs, reading the status yields the value most recently written. */
  lemma {:induction false} StatusIsLastWrite(sys: System, sts: seq<Status>)
    requires !sys.halted && |sts| > 0
    ensures GetStatus(Run(sys, StatusWrites(sts))) == sts[|sts| - 1]
    ensures !Run(sys, StatusWrites(sts)).halted
    decreases |sts|
  {
    RunCons(sys, SetStatusEvent(sts[0]), StatusWrites(sts[1..]));
    if |sts| > 1 {
      StatusIsLastWrite(SetStatus(sys, sts[0]), sts[1..]);
    }
  }

  /** Monitor cycles with the given free-heap readings. */
  function MonitorTicks(readings: seq<nat>): (es: seq<Event>)
    ensures |es| == |readings|
  {
    if readings == [] then [] else [MonitorTick(readings[0])] + MonitorTicks(readings[1..])
  }

  /**
   The monitor refreshes the watchdog on every cycle whatever the heap
   readings are: no health check gates the refresh, and the status is not
   touched.
   */
  lemma {:induction false} MonitorRefreshesEveryCycle(sys: System, readings: seq<nat>)
    requires !sys.halted
    ensures Run(sys, MonitorTicks(readings)).watchdogFeeds == sys.watchdogFeeds + |readings|
    ensures Run(sys, MonitorTicks(readings)).status == sys.status
    ensures !Run(sys, MonitorTicks(readings)).halted
    decreases |readings|
  {
    if readings != [] {
      RunCons(sys, MonitorTick(readings[0]), MonitorTicks(readings[1..]));
      MonitorRefreshesEveryCycle(MonitorCycle(sys, readings[0]), readings[1..]);
    }
  }

  /**
   The two cores sharing the one `System`, with the set of cores that are
   spinning in a fault hook. The shared state itself is never halted here:
   halting belongs to a core.
   */
  datatype DualSystem = DualSystem(state: System, stopped: set<nat>)

  /**
   One event on one core, as the firmware is written. The malloc-failed
   hook disables interrupts and spins on the core that called it only, so
   the other core goes on. A stack overflow is detected inside the kernel's
   context switch, which holds the scheduler's locks, so the other core
   stops too at its next scheduling point; this model stops it at once.
   */
  function CoreStep(d: DualSystem, core: nat, e: Event): (r: DualSystem)
    requires core < NUMBER_OF_CORES && !d.state.halted
    ensures !r.state.halted
    ensures core in d.stopped ==> r == d
    ensures d.stopped <= r.stopped
    ensures core !in d.stopped && e.MallocFailed? ==> r.stopped == d.stopped + {core} && r.state.status == Fault
    ensures core !in d.stopped && e.StackOverflow? ==> r.stopped == d.stopped + {0, 1} && r.state.status == Fault
    ensures core !in d.stopped && e.MonitorTick? ==>
              r.stopped == d.stopped && r.state.watchdogFeeds == d.state.watchdogFeeds + 1
  {
    if core in d.stopped then d
    else
      var next := Step(d.state, e);
      if !next.halted then DualSystem(next, d.stopped)
      else if e.MallocFailed? then DualSystem(next.(halted := false), d.stopped + {core})
      else DualSystem(next.(halted := false), d.stopped + {0, 1})
  }

  /** Events in order, all on the same core. */
  function CoreRun(d: DualSystem, core: nat, es: seq<Event>): (r: DualSystem)
    requires core < NUMBER_OF_CORES && !d.state.halted
    ensures !r.state.halted
    decreases |es|
  {
    if es == [] then d else CoreRun(CoreStep(d, core, es[0]), core, es[1..])
  }

  /** On a core that is not stopped, each monitor cycle refreshes the watchdog and leaves status and stopped cores alone. */
  lemma {:induction false} MonitorTicksOnLiveCore(d: DualSystem, core: nat, readings: seq<nat>)
    requires core < NUMBER_OF_CORES && !d.state.halted && core !in d.stopped
    ensures CoreRun(d, core, MonitorTicks(readings)).state.watchdogFeeds == d.state.watchdogFeeds + |readings|
    ensures CoreRun(d, core, MonitorTicks(readings)).state.status == d.state.status
    ensures CoreRun(d, core, MonitorTicks(readings)).stopped == d.stopped
    decreases |readings|
  {
    if readings != [] {
      var es := MonitorTicks(readings);
      assert es[0] == MonitorTick(readings[0]) && es[1..] == MonitorTicks(readings[1..]);
      MonitorTicksOnLiveCore(CoreStep(d, core, es[0]), core, readings[1..]);
    }
  }

  /**
   The firmware as written: after the malloc-failed hook on core 1 the
   status is FAULT, yet the system monitor, which has no core pinning,
   carries on on core 0 and refreshes the watchdog on every cycle, so the
   reset the hook's comment expects does not come.
   */
  lemma {:induction false} MonitorOutlivesMallocHook(sys: System, readings: seq<nat>)
    requires !sys.halted
    ensures var d := CoreRun(CoreStep(DualSystem(sys, {}), 1, MallocFailed), 0, MonitorTicks(readings));
            && d.stopped == {1}
            && d.state.status == Fault
            && d.state.watchdogFeeds == sys.watchdogFeeds + |readings|
  {
    MonitorTicksOnLiveCore(CoreStep(DualSystem(sys, {}), 1, MallocFailed), 0, readings);
  }
}
