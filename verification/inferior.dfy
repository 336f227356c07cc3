/**
 Starting the program on an open instance: `sim_create_inferior`
 (sim/epiphany/sim-if.c, lines 397-446).
 */
module Inferior {
  import opened SimTypes

  /** The address execution starts at: the program's entry point, or 0 when
      there is no program. */
  function StartAddress(program: Option<nat>): nat {
    match program
    case Some(entry) => entry
    case None => 0
  }

  /** `sim_create_inferior`.  The PC is set first, so it is set even when the
      call then fails.  An ESIM build refuses to start without a valid core id;
      with one it publishes the id in coremesh register 1 and then waits for the
      other cores. */
  function CreateInferior(build: Build, o: Oracles, proc: Process, sim: Sim, program: Option<nat>): (r: Reply)
    ensures r.proc == proc
    ensures r.sim == sim.(pc := r.sim.pc, coremesh := r.sim.coremesh)
    ensures r.sim.pc == StartAddress(program)
    ensures r.rc == Ok <==> !build.emesh || o.validCoreid(sim.coreid)
    ensures r.sim.coremesh ==
      (if build.emesh && o.validCoreid(sim.coreid) then sim.coremesh[COREID_REGISTER := sim.coreid] else sim.coremesh)
    ensures r.calls == (if build.emesh && r.rc == Ok then [WaitForPeers] else [])
  {
    var started := sim.(pc := StartAddress(program));
    if !build.emesh then Reply(Ok, proc, started, [])
    else if !o.validCoreid(sim.coreid) then Reply(Fail, proc, started, [])
    else Reply(Ok, proc, started.(coremesh := started.coremesh[COREID_REGISTER := sim.coreid]), [WaitForPeers])
  }
}
