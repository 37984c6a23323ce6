/**
 The compile-time configuration of the fire-panel firmware: scheduler limits,
 the static stack sizes of the kernel's own tasks, the two core-affinity
 masks, and the role table that gives each of the six application task kinds
 a priority, a stack budget (in words) and a core-affinity mask.
 */
module FreeRTOSConfig {

  /** UBaseType_t on the dual-core target is 32 bits wide; affinity masks are values of it. */
  type Mask = bv32

  const MAX_PRIORITIES: nat := 32
  const MINIMAL_STACK_SIZE: nat := 256
  const NUMBER_OF_CORES: nat := 2
  /** configUSE_CORE_AFFINITY: a C flag, true when non-zero. */
  const USE_CORE_AFFINITY: int := 1
  const TIMER_TASK_PRIORITY: nat := MAX_PRIORITIES - 1
  const TIMER_TASK_STACK_DEPTH: nat := 1024
  /** tskIDLE_PRIORITY of the kernel. */
  const IDLE_PRIORITY: nat := 0

  /** Core 0: detection, alarm logic and the watchdog supervisor. */
  const CORE_AFFINITY_SENSORS: Mask := 1 << 0
  /** Core 1: I2C/GSM communication, status indicator and diagnostics. */
  const CORE_AFFINITY_COMMUNICATION: Mask := 1 << 1
  /** Every core present: (1 << configNUMBER_OF_CORES) - 1. */
  const CORE_AFFINITY_ANY: Mask := (1 << NUMBER_OF_CORES) - 1

  /** True when the mask allows core `c`. */
  predicate AllowsCore(m: Mask, c: nat)
    requires c < 32
  {
    m & (1 << c) != 0
  }

  /** The cores among the first `n` that a mask allows. */
  function CoresBelow(m: Mask, n: nat): set<nat>
    requires n <= 32
  {
    if n == 0 then {}
    else CoresBelow(m, n - 1) + (if AllowsCore(m, n - 1) then {n - 1} else {})
  }

  /** The cores actually present that a mask allows. */
  function Cores(m: Mask): set<nat>
  {
    CoresBelow(m, NUMBER_OF_CORES)
  }

  predicate MaskSubset(a: Mask, b: Mask)
  {
    a & !b == 0
  }

  predicate MasksDisjoint(a: Mask, b: Mask)
  {
    a & b == 0
  }

  /** The six application roles of the panel. */
  datatype TaskKind =
    | Watchdog
    | SensorMonitor
    | AlarmControl
    | Communication
    | StatusLed
    | Diagnostics

  /** TASK_PRIORITY_*: higher is more urgent. */
  function Priority(k: TaskKind): (p: nat)
    ensures IDLE_PRIORITY < p < MAX_PRIORITIES
  {
    match k
    case Watchdog => MAX_PRIORITIES - 1
    case SensorMonitor => MAX_PRIORITIES - 2
    case AlarmControl => MAX_PRIORITIES - 3
    case Communication => MAX_PRIORITIES - 4
    case StatusLed => MAX_PRIORITIES - 8
    case Diagnostics => MAX_PRIORITIES - 10
  }

  /** TASK_STACK_SIZE_*, in words. */
  function StackSize(k: TaskKind): (words: nat)
    ensures MINIMAL_STACK_SIZE <= words
  {
    match k
    case Watchdog => 256
    case SensorMonitor => 512
    case AlarmControl => 256
    case Communication => 384
    case StatusLed => 256
    case Diagnostics => 512
  }

  /** TASK_CORE_AFFINITY_*. */
  function CoreAffinity(k: TaskKind): (m: Mask)
    ensures m != 0 && MaskSubset(m, CORE_AFFINITY_ANY) && m != CORE_AFFINITY_ANY
  {
    match k
    case Watchdog => CORE_AFFINITY_SENSORS
    case SensorMonitor => CORE_AFFINITY_SENSORS
    case AlarmControl => CORE_AFFINITY_SENSORS
    case Communication => CORE_AFFINITY_COMMUNICATION
    case StatusLed => CORE_AFFINITY_COMMUNICATION
    case Diagnostics => CORE_AFFINITY_COMMUNICATION
  }

  /**
   The partitioning policy in words: detection, alarm logic and watchdog
   management are time critical; communication, the status indicator and
   diagnostics are not.
   */
  predicate TimeCritical(k: TaskKind)
  {
    k == Watchdog || k == SensorMonitor || k == AlarmControl
  }

  /** Urgency rank as the header lists the roles, 0 being the most urgent. */
  function Rank(k: TaskKind): nat
  {
    match k
    case Watchdog => 0
    case SensorMonitor => 1
    case AlarmControl => 2
    case Communication => 3
    case StatusLed => 4
    case Diagnostics => 5
  }

  /** No two roles share a priority, and every priority is a valid kernel priority. */
  lemma PrioritiesDistinctAndInRange()
    ensures forall a: TaskKind, b: TaskKind :: a != b ==> Priority(a) != Priority(b)
    ensures forall k: TaskKind :: 0 <= Priority(k) < MAX_PRIORITIES
  {
  }

  /**
   Priorities follow the documented urgency order exactly:
   Watchdog > SensorMonitor > AlarmControl > Communication > StatusLed > Diagnostics.
   */
  lemma PriorityOrderMatchesRank(a: TaskKind, b: TaskKind)
    ensures Priority(a) > Priority(b) <==> Rank(a) < Rank(b)
  {
  }

  /** The role-to-core partition: time-critical roles on core 0, the others on core 1. */
  lemma PartitionByCriticality(k: TaskKind)
    ensures CoreAffinity(k) == (if TimeCritical(k) then CORE_AFFINITY_SENSORS else CORE_AFFINITY_COMMUNICATION)
    ensures Cores(CoreAffinity(k)) == (if TimeCritical(k) then {0} else {1})
  {
  }

  /** The two partition masks are disjoint, neither is "any core", and together they cover both cores. */
  lemma PartitionMasksDisjoint()
    ensures MasksDisjoint(CORE_AFFINITY_SENSORS, CORE_AFFINITY_COMMUNICATION)
    ensures CORE_AFFINITY_SENSORS != CORE_AFFINITY_ANY && CORE_AFFINITY_COMMUNICATION != CORE_AFFINITY_ANY
    ensures CORE_AFFINITY_SENSORS | CORE_AFFINITY_COMMUNICATION == CORE_AFFINITY_ANY
    ensures Cores(CORE_AFFINITY_ANY) == {0, 1}
  {
    assert AllowsCore(CORE_AFFINITY_ANY, 0) && AllowsCore(CORE_AFFINITY_ANY, 1);
    assert CoresBelow(CORE_AFFINITY_ANY, 1) == {0};
  }

  /**
   The timer daemon runs at configMAX_PRIORITIES - 1, the same level as the
   watchdog role: priorities are distinct among the six roles only, not once
   the kernel's timer service task is counted.
   */
  lemma TimerSharesWatchdogPriority()
    ensures TIMER_TASK_PRIORITY == Priority(Watchdog)
    ensures exists k: TaskKind :: Priority(k) == TIMER_TASK_PRIORITY
    ensures forall k: TaskKind :: k != Watchdog ==> Priority(k) < TIMER_TASK_PRIORITY
  {
  }
}
