/**
 System initialisation of the panel: the single system status value with its
 setter and getter, the default configuration, the self test and hardware
 abstraction start-up, the shutdown procedure, the two fatal fault hooks and
 the static memory the kernel asks for when it creates its own idle, timer
 and passive-idle tasks.

 The process-wide globals become one immutable `System` value that every
 operation takes and returns. A fault hook's endless loop with interrupts
 disabled is the `halted` flag: once set, nothing runs any more.
 */
module SystemInit {
  import opened FreeRTOSConfig
  import opened Kernel

  const MAX_ZONES: nat := 4

  type uint8 = x: int | 0 <= x < 0x100
  type uint16 = x: int | 0 <= x < 0x1_0000

  /** system_status_t. */
  datatype Status = Init | Normal | Alarm | Fault | Test

  /** system_config_t. */
  datatype SystemConfig = SystemConfig(
    zoneCount: uint8,
    deviceAddress: uint8,
    watchdogEnabled: bool,
    sensorThreshold: seq<uint16>)

  /** The shape every configuration keeps: one threshold per zone slot, and no more zones than slots. */
  predicate ConfigWellFormed(c: SystemConfig)
  {
    |c.sensorThreshold| == MAX_ZONES && c.zoneCount <= MAX_ZONES
  }

  /** The configuration global before initialisation: static storage, all zero. */
  const ZeroConfig: SystemConfig := SystemConfig(0, 0, false, seq(MAX_ZONES, _ => 0))

  const DEFAULT_ZONE_COUNT: uint8 := 4
  /** The default I2C slave address. */
  const DEFAULT_DEVICE_ADDRESS: uint8 := 0x20
  /** Mid-range of a 10-bit ADC. */
  const DEFAULT_THRESHOLD: uint16 := 512

  /** The factory defaults, as a value. */
  function DefaultConfig(): SystemConfig
  {
    SystemConfig(DEFAULT_ZONE_COUNT, DEFAULT_DEVICE_ADDRESS, true, seq(MAX_ZONES, _ => DEFAULT_THRESHOLD))
  }

  /**
   `system_config_init`: clear the configuration, set the scalar defaults,
   then give every zone slot the default threshold.
   */
  method ConfigInit() returns (c: SystemConfig)
    ensures ConfigWellFormed(c)
    ensures c.zoneCount == 4 && c.deviceAddress == 0x20 && c.watchdogEnabled
    ensures forall z :: 0 <= z < MAX_ZONES ==> c.sensorThreshold[z] == 512
    ensures c == DefaultConfig()
  {
    c := ZeroConfig;
    c := c.(zoneCount := DEFAULT_ZONE_COUNT, deviceAddress := DEFAULT_DEVICE_ADDRESS, watchdogEnabled := true);
    var i := 0;
    while i < MAX_ZONES
      invariant 0 <= i <= MAX_ZONES
      invariant |c.sensorThreshold| == MAX_ZONES
      invariant c.zoneCount == DEFAULT_ZONE_COUNT && c.deviceAddress == DEFAULT_DEVICE_ADDRESS && c.watchdogEnabled
      invariant forall z :: 0 <= z < i ==> c.sensorThreshold[z] == DEFAULT_THRESHOLD
    {
      c := c.(sensorThreshold := c.sensorThreshold[i := DEFAULT_THRESHOLD]);
      i := i + 1;
    }
    assert c.sensorThreshold == seq(MAX_ZONES, _ => DEFAULT_THRESHOLD);
  }

  /**
   The firmware's global state: the status value, the configuration,
   whether a fault hook has halted the processor, and how many times the
   hardware watchdog has been refreshed.
   */
  datatype System = System(status: Status, config: SystemConfig, halted: bool, watchdogFeeds: nat)

  /** The globals at reset. */
  const PowerOn: System := System(Init, ZeroConfig, false, 0)

  /** `system_get_status`: reads the stored status, so writing back what it returns changes nothing. */
  function GetStatus(sys: System): (st: Status)
    ensures SetStatus(sys, st) == sys
  {
    sys.status
  }

  /** `system_set_status`: the only writer of the status value; nothing else changes. */
  function SetStatus(sys: System, st: Status): (r: System)
    ensures r.status == st
    ensures r.config == sys.config && r.halted == sys.halted && r.watchdogFeeds == sys.watchdogFeeds
  {
    sys.(status := st)
  }

  /** The status at reset is INIT, and a read returns the value just written. */
  lemma StatusGetAfterSet(sys: System, st: Status)
    ensures GetStatus(PowerOn) == Init
    ensures GetStatus(SetStatus(sys, st)) == st
    ensures SetStatus(sys, GetStatus(sys)) == sys
  {
  }

  datatype SelfTestResult = SelfTestResult(passed: bool, watchdogUpdates: nat)

  /**
   `system_self_test`, with the kernel heap's answer to the 1024-byte
   allocation as `allocOk`. The GPIO step cannot fail; the watchdog is fed
   once when the configuration enables it.
   */
  function SelfTest(allocOk: bool, config: SystemConfig): (r: SelfTestResult)
    ensures r.passed <==> allocOk
    ensures r.watchdogUpdates == (if allocOk && config.watchdogEnabled then 1 else 0)
  {
    if !allocOk then SelfTestResult(false, 0)
    else SelfTestResult(true, if config.watchdogEnabled then 1 else 0)
  }

  datatype HalResult = HalResult(sys: System, ok: bool)

  /**
   `hal_init`: always install the default configuration, then run the self
   test; on failure report false and leave the status alone, otherwise set
   status NORMAL and report true.
   */
  function HalInit(sys: System, allocOk: bool): (r: HalResult)
    ensures r.sys.config == DefaultConfig()
    ensures r.ok <==> allocOk
    ensures !r.ok ==> r.sys.status == sys.status && r.sys.watchdogFeeds == sys.watchdogFeeds
    ensures r.ok ==> r.sys.status == Normal && r.sys.watchdogFeeds == sys.watchdogFeeds + 1
    ensures r.sys.halted == sys.halted
  {
    var configured := sys.(config := DefaultConfig());
    var t := SelfTest(allocOk, configured.config);
    var fed := configured.(watchdogFeeds := configured.watchdogFeeds + t.watchdogUpdates);
    if !t.passed then HalResult(fed, false)
    else HalResult(SetStatus(fed, Normal), true)
  }

  /** `system_shutdown`: record FAULT and return; the processor keeps running. */
  function Shutdown(sys: System): (r: System)
    ensures GetStatus(r) == Fault
    ensures r.halted == sys.halted && r.config == sys.config && r.watchdogFeeds == sys.watchdogFeeds
  {
    SetStatus(sys, Fault)
  }

  /** `vApplicationMallocFailedHook`: record FAULT, disable interrupts and spin. */
  function MallocFailedHook(sys: System): (r: System)
    ensures GetStatus(r) == Fault && r.halted
    ensures r.config == sys.config && r.watchdogFeeds == sys.watchdogFeeds
  {
    SetStatus(sys, Fault).(halted := true)
  }

  /** `vApplicationStackOverflowHook`: the offending task only appears in the message; same halt. */
  function StackOverflowHook(sys: System, task: TaskHandle, taskName: string): (r: System)
    ensures GetStatus(r) == Fault && r.halted
    ensures r.config == sys.config && r.watchdogFeeds == sys.watchdogFeeds
  {
    SetStatus(sys, Fault).(halted := true)
  }

  /** The passive-idle arrays have one entry per core other than the first. */
  const PASSIVE_IDLE_SLOTS: nat := NUMBER_OF_CORES - 1

  /** A buffer that the firmware actually declares (passive-idle slots exist only below the array length). */
  predicate Declared(b: StaticBuffer)
  {
    match b
    case PassiveIdleTcb(i) => i < PASSIVE_IDLE_SLOTS
    case PassiveIdleStack(i) => i < PASSIVE_IDLE_SLOTS
    case _ => true
  }

  /** Element count of each declared buffer: one control block, or a stack of StackType_t words. */
  function DeclaredLength(b: StaticBuffer): nat
  {
    match b
    case IdleTcb => 1
    case IdleStack => MINIMAL_STACK_SIZE
    case TimerTcb => 1
    case TimerStack => TIMER_TASK_STACK_DEPTH
    case PassiveIdleTcb(_) => 1
    case PassiveIdleStack(_) => MINIMAL_STACK_SIZE
  }

  /** A callback answer the kernel can use: declared buffers, and a size that is the stack's real length. */
  predicate SoundMemory(m: TaskMemory)
  {
    && Declared(m.tcb) && Declared(m.stack)
    && m.tcb != m.stack
    && m.stackSize == DeclaredLength(m.stack)
  }

  /** `vApplicationGetIdleTaskMemory`. */
  function IdleTaskMemory(): (m: TaskMemory)
    ensures SoundMemory(m)
    ensures m.stackSize == MINIMAL_STACK_SIZE
  {
    TaskMemory(IdleTcb, IdleStack, MINIMAL_STACK_SIZE)
  }

  /** `vApplicationGetTimerTaskMemory`. */
  function TimerTaskMemory(): (m: TaskMemory)
    ensures SoundMemory(m)
    ensures m.stackSize == TIMER_TASK_STACK_DEPTH
  {
    TaskMemory(TimerTcb, TimerStack, TIMER_TASK_STACK_DEPTH)
  }

  /**
   `vApplicationGetPassiveIdleTaskMemory`. The C code indexes its arrays
   without a check, so the index must be one of the declared slots.
   */
  function PassiveIdleTaskMemory(index: int): (m: TaskMemory)
    requires 0 <= index < NUMBER_OF_CORES - 1
    ensures SoundMemory(m)
    ensures m.stackSize == MINIMAL_STACK_SIZE
  {
    TaskMemory(PassiveIdleTcb(index), PassiveIdleStack(index), MINIMAL_STACK_SIZE)
  }

  /**
   No two callback answers share a buffer: the idle task, the timer task
   and each passive-idle slot get storage of their own.
   */
  lemma StaticMemoryDisjoint(i: int, j: int)
    requires 0 <= i < NUMBER_OF_CORES - 1 && 0 <= j < NUMBER_OF_CORES - 1
    ensures var idle, timer, p := IdleTaskMemory(), TimerTaskMemory(), PassiveIdleTaskMemory(i);
            {idle.tcb, idle.stack} !! {timer.tcb, timer.stack}
            && {idle.tcb, idle.stack} !! {p.tcb, p.stack}
            && {timer.tcb, timer.stack} !! {p.tcb, p.stack}
  {
  }

  /** On this two-core build there is exactly one passive-idle slot, index 0. */
  lemma OnePassiveIdleSlot(index: int)
    ensures 0 <= index < NUMBER_OF_CORES - 1 <==> index == 0
  {
  }
}
