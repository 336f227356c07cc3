/**
 The state the Epiphany simulator's bootstrap code reads and writes, and the
 collaborators it calls, reduced to values.  A process owns the statics of
 sim/epiphany/sim-if.c; an instance (SIM_DESC) owns one core's state record,
 its ESIM core id, its attached memory and its program counter.
 */
module SimTypes {

  datatype Option<+T> = None | Some(value: T)

  /** SIM_RC. */
  datatype Rc = Ok | Fail

  /** A per-core state record (`sim_cpu`): where it lives and how many bytes it spans. */
  datatype Cpu = Cpu(addr: nat, size: nat)

  /** An attached memory region: `len` bytes starting at `base`. */
  datatype Region = Region(base: nat, len: nat)

  /** SIM_OPEN_KIND: a stand-alone run, or a simulator driven by a debugger. */
  datatype OpenKind = Standalone | Debug

  /** The statics of sim-if.c, which outlive every instance the process opens. */
  datatype Process = Process(
    addExtMem: bool,    // epiphany_add_ext_mem: provision the two external banks
    freed: bool,        // `freed` inside sim_esim_cpu_relocate
    cpuFrees: seq<Cpu>  // the records sim_esim_cpu_relocate handed to sim_cpu_free, oldest first
  )

  /** The statics at process start: external memory on, nothing freed yet. */
  const StartOfProcess := Process(true, false, [])

  /** The coremesh register sim_create_inferior publishes the core id in. */
  const COREID_REGISTER: nat := 1

  /** One simulator instance. */
  datatype Sim = Sim(
    kind: OpenKind,
    coreid: nat,              // STATE_ESIM(sd)->coreid
    cpu: Cpu,                 // STATE_CPU(sd, 0)
    regions: seq<Region>,     // attached memory, in attach order
    pc: nat,
    coremesh: map<nat, nat>   // coremesh registers written so far
  )

  /** The effectful calls into the ESIM library, in the order they are made. */
  datatype EsimCall =
    | Reserve(id: nat)              // es_set_coreid
    | PlaceCpu(current: Cpu, size: nat) // es_set_cpu_state
    | WaitForPeers                  // es_wait_run

  /** What an option handler or sim_create_inferior leaves behind. */
  datatype Reply = Reply(rc: Rc, proc: Process, sim: Sim, calls: seq<EsimCall>)

  /** The answers of collaborators whose code is not part of this model. */
  datatype Oracles = Oracles(
    validCoreid: nat -> bool,           // es_valid_coreid: the id belongs to this node
    reserveCoreid: nat -> bool,         // es_set_coreid: the id could be reserved
    placeCpu: (Cpu, nat) -> Option<nat>, // es_set_cpu_state: where the new record lives, or NULL
    maxExtraBytes: nat                  // cgen_cpu_max_extra_bytes ()
  )

  /** Where the default memory goes.  The four EPIPHANY_DEFAULT_* constants come
      from sim-main.h, which is not part of this model. */
  datatype Layout = Layout(memSize: nat, bank0Start: nat, bank1Start: nat, bankSize: nat)

  /** Compile-time configuration. */
  datatype Build = Build(
    emesh: bool,          // WITH_EMESH_SIM
    sockser: bool,        // HAVE_DV_SOCKSER
    cpuHeaderSize: nat,   // sizeof (sim_cpu)
    layout: Layout
  )

  /** The once-only free: the record sim_esim_cpu_relocate frees is freed at most
      once, and `freed` records exactly whether that has happened. */
  predicate FreedOnce(p: Process) {
    |p.cpuFrees| <= 1 && (p.freed <==> |p.cpuFrees| == 1)
  }

  /** How the statics and the core record after some steps relate to those before:
      once `freed` is set it stays set and nothing more is freed; while it is
      clear the record has not moved; and the one record freed when it becomes
      set is the record the instance started with. */
  predicate FreeRecorded(p: Process, cpu: Cpu, p2: Process, cpu2: Cpu) {
    && (p.freed ==> p2.freed && p2.cpuFrees == p.cpuFrees)
    && (!p2.freed ==> p2.cpuFrees == p.cpuFrees && cpu2 == cpu)
    && (!p.freed && p2.freed ==> p2.cpuFrees == p.cpuFrees + [cpu])
  }

  /** A step that records its frees this way keeps the once-only free. */
  lemma FreeRecordedKeepsOnce(p: Process, cpu: Cpu, p2: Process, cpu2: Cpu)
    requires FreedOnce(p) && FreeRecorded(p, cpu, p2, cpu2)
    ensures FreedOnce(p2)
  {
  }
}
