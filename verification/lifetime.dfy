/**
 The process around the instances: a debugger may open an instance, change
 its options with "sim" commands, start the program and close it, as often as
 it likes.  The statics of sim/epiphany/sim-if.c survive all of this, which is
 what makes the once-only free of `sim_esim_cpu_relocate` (lines 149-164) a
 property of the whole process rather than of one instance.
 */
module Lifetime {
  import opened SimTypes
  import opened Bootstrap
  import opened Inferior

  /** A process: its statics and the instance it has open, if any. */
  datatype Session = Session(proc: Process, sd: Option<Sim>)

  /** A process that has not opened anything yet. */
  const Fresh := Session(StartOfProcess, None)

  /** What stays fixed for the node: its topology and `cgen_cpu_max_extra_bytes ()`. */
  datatype Node = Node(validCoreid: nat -> bool, maxExtraBytes: nat)

  /** What the other processes of the mesh answer at one moment. */
  datatype Answers = Answers(reserveCoreid: nat -> bool, placeCpu: (Cpu, nat) -> Option<nat>)

  function OraclesAt(n: Node, a: Answers): Oracles {
    Oracles(n.validCoreid, a.reserveCoreid, a.placeCpu, n.maxExtraBytes)
  }

  /** What the debugger asks of the simulator. */
  datatype Action =
    | OpenSim(kind: OpenKind, argv: seq<Arg>, services: Services, answers: Answers) // sim_open
    | Command(arg: Arg, answers: Answers)                                           // "sim <option>"
    | Start(program: Option<nat>, answers: Answers)                                 // sim_create_inferior
    | CloseSim                                                                      // sim_close

  /** Every external-memory option in the action carries its argument. */
  predicate Callable(a: Action) {
    match a
    case OpenSim(_, argv, _, _) => ArgsCarrySettings(argv)
    case Command(arg, _) => arg.ExternalMemory? ==> arg.setting.Some?
    case Start(_, _) => true
    case CloseSim => true
  }

  /** One action.  Opening replaces whatever instance was open (the debugger
      closes it first); a command or a start without an instance does nothing;
      an instance keeps whatever a failed command left in it. */
  function Step(build: Build, n: Node, st: Session, a: Action): (r: Session)
    requires Callable(a)
    ensures a.CloseSim? ==> r == Session(st.proc, None)
    ensures !a.OpenSim? && st.sd.None? ==> r == st
  {
    match a
    case OpenSim(kind, argv, s, ans) =>
      var r := Open(build, OraclesAt(n, ans), s, st.proc, kind, argv);
      Session(r.proc, r.sd)
    case Command(arg, ans) =>
      if st.sd.None? then st
      else
        var r := ApplyArg(build, OraclesAt(n, ans), st.proc, st.sd.value, arg);
        Session(r.proc, Some(r.sim))
    case Start(program, ans) =>
      if st.sd.None? then st
      else
        var r := CreateInferior(build, OraclesAt(n, ans), st.proc, st.sd.value, program);
        Session(r.proc, Some(r.sim))
    case CloseSim => Session(st.proc, None)
  }

  /** A sequence of actions, in order. */
  function Run(build: Build, n: Node, st: Session, actions: seq<Action>): Session
    requires forall i :: 0 <= i < |actions| ==> Callable(actions[i])
    decreases |actions|
  {
    if |actions| == 0 then st
    else Run(build, n, Step(build, n, st, actions[0]), actions[1..])
  }

  /** One action keeps the once-only free. */
  lemma StepFreesOnce(build: Build, n: Node, st: Session, a: Action)
    requires Callable(a) && FreedOnce(st.proc)
    ensures FreedOnce(Step(build, n, st, a).proc)
  {
    match a
    case OpenSim(_, _, _, _) =>
    case Command(arg, ans) =>
      if st.sd.Some? {
        var r := ApplyArg(build, OraclesAt(n, ans), st.proc, st.sd.value, arg);
        FreeRecordedKeepsOnce(st.proc, st.sd.value.cpu, r.proc, r.sim.cpu);
      }
    case Start(_, _) =>
    case CloseSim =>
  }

  /** However many instances the process opens, reconfigures and closes, the
      once-only free holds throughout. */
  lemma {:induction false} RunFreesOnce(build: Build, n: Node, st: Session, actions: seq<Action>)
    requires forall i :: 0 <= i < |actions| ==> Callable(actions[i])
    requires FreedOnce(st.proc)
    ensures FreedOnce(Run(build, n, st, actions).proc)
    decreases |actions|
  {
    if |actions| > 0 {
      StepFreesOnce(build, n, st, actions[0]);
      RunFreesOnce(build, n, Step(build, n, st, actions[0]), actions[1..]);
    }
  }

  /** The free inside `sim_esim_cpu_relocate` runs at most once in the life of a process. */
  lemma ProcessFreesAtMostOnce(build: Build, n: Node, actions: seq<Action>)
    requires forall i :: 0 <= i < |actions| ==> Callable(actions[i])
    ensures |Run(build, n, Fresh, actions).proc.cpuFrees| <= 1
  {
    RunFreesOnce(build, n, Fresh, actions);
  }

  /** A stand-alone instance holds a core id of the node. */
  predicate StandaloneHoldsValidCoreid(n: Node, st: Session) {
    st.sd.Some? && st.sd.value.kind == Standalone ==> n.validCoreid(st.sd.value.coreid)
  }

  /** In an ESIM build, every action keeps a stand-alone instance's core id valid:
      opening checks it, and a "sim coreid" command only ever installs a valid one. */
  lemma {:induction false} RunKeepsStandaloneCoreid(build: Build, n: Node, st: Session, actions: seq<Action>)
    requires forall i :: 0 <= i < |actions| ==> Callable(actions[i])
    requires build.emesh && StandaloneHoldsValidCoreid(n, st)
    ensures StandaloneHoldsValidCoreid(n, Run(build, n, st, actions))
    decreases |actions|
  {
    if |actions| > 0 {
      var next := Step(build, n, st, actions[0]);
      assert StandaloneHoldsValidCoreid(n, next);
      RunKeepsStandaloneCoreid(build, n, next, actions[1..]);
    }
  }

  /** In an ESIM build, starting the program on a stand-alone instance never fails
      for want of a core id, and publishes the id the instance holds in coremesh
      register 1, whatever happened since the process began. */
  lemma StandaloneStartSucceeds(build: Build, n: Node, actions: seq<Action>, program: Option<nat>, ans: Answers)
    requires forall i :: 0 <= i < |actions| ==> Callable(actions[i])
    requires build.emesh
    ensures var st := Run(build, n, Fresh, actions);
      st.sd.Some? && st.sd.value.kind == Standalone ==>
        var r := CreateInferior(build, OraclesAt(n, ans), st.proc, st.sd.value, program);
        && r.rc == Ok
        && COREID_REGISTER in r.sim.coremesh
        && r.sim.coremesh[COREID_REGISTER] == st.sd.value.coreid
  {
    RunKeepsStandaloneCoreid(build, n, Fresh, actions);
  }
}
