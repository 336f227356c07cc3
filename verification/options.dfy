/**
 The two Epiphany option handlers and the core-record relocation the core-id
 handler triggers (sim/epiphany/sim-if.c, lines 76-164).
 */
module Options {
  import opened SimTypes
  import opened CString

  /** `epiphany_extenal_memory_option_handler`.  The option takes an optional
      argument, but the handler compares it with strcmp without a NULL check, so
      it must be present.  "off" and "on" set the process-wide flag; anything else
      is accepted and ignored. */
  function ExternalMemoryOption(proc: Process, sim: Sim, arg: Option<string>): (r: Reply)
    requires arg.Some?
    ensures r.rc == Ok && r.sim == sim && r.calls == []
    ensures r.proc.freed == proc.freed && r.proc.cpuFrees == proc.cpuFrees
    ensures arg.value == "off" ==> !r.proc.addExtMem
    ensures arg.value == "on" ==> r.proc.addExtMem
    ensures arg.value != "off" && arg.value != "on" ==> r.proc == proc
  {
    var p := if arg.value == "off" then proc.(addExtMem := false) else proc;
    var p' := if arg.value == "on" then p.(addExtMem := true) else p;
    Reply(Ok, p', sim, [])
  }

  /** The size the relocated record is asked to have. */
  function RelocatedSize(build: Build, extraBytes: nat): nat {
    build.cpuHeaderSize + extraBytes
  }

  /** `sim_esim_cpu_relocate`: ask ESIM for a record of `sizeof (sim_cpu) + extra_bytes`
      bytes; on NULL fail and leave everything as it was.  Otherwise free the
      current record, unless the static `freed` says a record was already freed
      in this process, and make the new one the instance's core record. */
  function Relocate(build: Build, o: Oracles, proc: Process, sim: Sim, extraBytes: nat): (r: Reply)
    ensures r.calls == [PlaceCpu(sim.cpu, RelocatedSize(build, extraBytes))]
    ensures r.rc == Ok <==> o.placeCpu(sim.cpu, RelocatedSize(build, extraBytes)).Some?
    ensures r.rc == Fail ==> r.proc == proc && r.sim == sim
    ensures r.rc == Ok ==>
      && r.sim == sim.(cpu := Cpu(o.placeCpu(sim.cpu, RelocatedSize(build, extraBytes)).value, RelocatedSize(build, extraBytes)))
      && r.proc.freed
      && r.proc.cpuFrees == (if proc.freed then proc.cpuFrees else proc.cpuFrees + [sim.cpu])
    ensures r.proc.addExtMem == proc.addExtMem
  {
    var size := RelocatedSize(build, extraBytes);
    match o.placeCpu(sim.cpu, size)
    case None => Reply(Fail, proc, sim, [PlaceCpu(sim.cpu, size)])
    case Some(addr) =>
      var p := if !proc.freed then proc.(freed := true, cpuFrees := proc.cpuFrees + [sim.cpu]) else proc;
      Reply(Ok, p, sim.(cpu := Cpu(addr, size)), [PlaceCpu(sim.cpu, size)])
  }

  /** Relocation keeps the once-only free, however often it runs. */
  lemma RelocateFreesOnce(build: Build, o: Oracles, proc: Process, sim: Sim, extraBytes: nat)
    requires FreedOnce(proc)
    ensures FreedOnce(Relocate(build, o, proc, sim, extraBytes).proc)
    ensures |Relocate(build, o, proc, sim, extraBytes).proc.cpuFrees| <= 1
  {
  }

  /** Core ids are 12 bits wide; 0 is not a core id. */
  const COREID_LIMIT: nat := 4096

  /** The value the core-id handler reads from its argument (`strtoul (arg, &endp, 0)`;
      `endp` is never looked at). */
  function ParsedCoreid(arg: string): nat {
    StrToUL(arg).value
  }

  /** The handler's first check: the argument starts with a decimal digit and reads
      as a number in [1, 4095]. */
  predicate CoreidInRange(arg: string) {
    |arg| > 0 && IsDigit(arg[0]) && 0 < ParsedCoreid(arg) < COREID_LIMIT
  }

  /** `(unsigned) ul`: conversion to a 32-bit unsigned int. */
  function ToUnsigned(ul: nat): nat {
    ul % 0x1_0000_0000
  }

  /** `epiphany_coreid_option_handler`.  The argument is read with base-0 strtoul;
      the rest is `CoreIdChecks`. */
  function CoreIdOption(build: Build, o: Oracles, proc: Process, sim: Sim, arg: string): (r: Reply)
    ensures var id := ParsedCoreid(arg);
      r.rc == Ok <==>
        && CoreidInRange(arg) && o.validCoreid(id)
        && (id == sim.coreid
            || (o.reserveCoreid(id)
                && o.placeCpu(sim.cpu, RelocatedSize(build, o.maxExtraBytes)).Some?))
    ensures var id := ParsedCoreid(arg);
      r.sim.coreid == (if CoreidInRange(arg) && o.validCoreid(id) && o.reserveCoreid(id) then id else sim.coreid)
    ensures var id := ParsedCoreid(arg);
      r.calls != [] <==> CoreidInRange(arg) && o.validCoreid(id) && id != sim.coreid
    ensures r.calls != [] ==> r.calls[0] == Reserve(ParsedCoreid(arg))
    ensures var id := ParsedCoreid(arg);
      |r.calls| > 1 <==> CoreidInRange(arg) && o.validCoreid(id) && id != sim.coreid && o.reserveCoreid(id)
    ensures r.rc == Fail ==> r.proc == proc && r.sim.cpu == sim.cpu
    ensures r.sim == sim.(coreid := r.sim.coreid, cpu := r.sim.cpu)
    ensures r.proc.addExtMem == proc.addExtMem
    ensures FreeRecorded(proc, sim.cpu, r.proc, r.sim.cpu)
    ensures |r.calls| > 1 ==>
      var m := Relocate(build, o, proc, sim.(coreid := ParsedCoreid(arg)), o.maxExtraBytes);
      r == Reply(m.rc, m.proc, m.sim, [Reserve(ParsedCoreid(arg))] + m.calls)
    ensures |r.calls| <= 1 ==> r.proc == proc && r.sim.cpu == sim.cpu
  {
    CoreIdChecks(build, o, proc, sim, |arg| > 0 && IsDigit(arg[0]), ParsedCoreid(arg))
  }

  /** The handler's checks once the argument has been read: `digitLed` says whether
      it starts with a decimal digit, `ul` is what strtoul returned.  The checks run
      in order: range, membership in this node, already held (a successful no-op),
      reservation, relocation.  Reservation and relocation are only attempted when
      every earlier check passes, and a relocation failure after a successful
      reservation leaves the new id in place. */
  function CoreIdChecks(build: Build, o: Oracles, proc: Process, sim: Sim, digitLed: bool, ul: nat): (r: Reply)
    ensures var ok := digitLed && 0 < ul < COREID_LIMIT;
      r.rc == Ok <==>
        && ok && o.validCoreid(ul)
        && (ul == sim.coreid
            || (o.reserveCoreid(ul)
                && o.placeCpu(sim.cpu, RelocatedSize(build, o.maxExtraBytes)).Some?))
    ensures var ok := digitLed && 0 < ul < COREID_LIMIT;
      r.sim.coreid == (if ok && o.validCoreid(ul) && o.reserveCoreid(ul) then ul else sim.coreid)
    ensures var ok := digitLed && 0 < ul < COREID_LIMIT;
      r.calls != [] <==> ok && o.validCoreid(ul) && ul != sim.coreid
    ensures r.calls != [] ==> r.calls[0] == Reserve(ul)
    ensures var ok := digitLed && 0 < ul < COREID_LIMIT;
      |r.calls| > 1 <==> ok && o.validCoreid(ul) && ul != sim.coreid && o.reserveCoreid(ul)
    ensures r.rc == Fail ==> r.proc == proc && r.sim.cpu == sim.cpu
    ensures r.sim == sim.(coreid := r.sim.coreid, cpu := r.sim.cpu)
    ensures r.proc.addExtMem == proc.addExtMem
    ensures FreeRecorded(proc, sim.cpu, r.proc, r.sim.cpu)
    ensures |r.calls| > 1 ==>
      var m := Relocate(build, o, proc, sim.(coreid := ul), o.maxExtraBytes);
      r == Reply(m.rc, m.proc, m.sim, [Reserve(ul)] + m.calls)
    ensures |r.calls| <= 1 ==> r.proc == proc && r.sim.cpu == sim.cpu
  {
    if !digitLed || ul == 0 || ul >= COREID_LIMIT then
      Reply(Fail, proc, sim, [])
    else
      var id := ToUnsigned(ul);
      if !o.validCoreid(id) then
        Reply(Fail, proc, sim, [])
      else if sim.coreid == id then
        Reply(Ok, proc, sim, [])
      else if !o.reserveCoreid(id) then
        Reply(Fail, proc, sim, [Reserve(id)])
      else
        var moved := Relocate(build, o, proc, sim.(coreid := id), o.maxExtraBytes);
        Reply(moved.rc, moved.proc, moved.sim, [Reserve(id)] + moved.calls)
  }

  /** Arguments that do not read as a number in [1, 4095] fail and touch nothing,
      whatever the topology or the other processes would have said. */
  lemma CoreidRejectsOutOfRange(build: Build, o: Oracles, proc: Process, sim: Sim, n: nat)
    requires n == 0 || n >= COREID_LIMIT
    ensures CoreIdOption(build, o, proc, sim, Numeral(n, 10)) == Reply(Fail, proc, sim, [])
    ensures CoreIdOption(build, o, proc, sim, "0x" + Numeral(n, 16)) == Reply(Fail, proc, sim, [])
    ensures CoreIdOption(build, o, proc, sim, "0" + Numeral(n, 8)) == Reply(Fail, proc, sim, [])
  {
    DecimalRoundTrip(n);
    HexRoundTrip(n);
    OctalRoundTrip(n);
    NumeralDigits(n, 10);
  }

  /** The handler reads decimal, 0x-hex and 0-octal spellings of a core id alike. */
  lemma CoreidSpellingsAgree(build: Build, o: Oracles, proc: Process, sim: Sim, n: nat)
    ensures CoreIdOption(build, o, proc, sim, "0x" + Numeral(n, 16)) == CoreIdOption(build, o, proc, sim, Numeral(n, 10))
    ensures CoreIdOption(build, o, proc, sim, "0" + Numeral(n, 8)) == CoreIdOption(build, o, proc, sim, Numeral(n, 10))
  {
    DecimalRoundTrip(n);
    HexRoundTrip(n);
    OctalRoundTrip(n);
    NumeralDigits(n, 10);
  }

  /** Trailing text is never checked: after a character that stops the number,
      anything may follow and the handler behaves as if it were absent. */
  lemma CoreidIgnoresTrailing(build: Build, o: Oracles, proc: Process, sim: Sim, arg: string, tail: string)
    requires |tail| == 0 || Stops(tail[0])
    ensures CoreIdOption(build, o, proc, sim, arg + tail) == CoreIdOption(build, o, proc, sim, arg)
  {
    if |arg| > 0 && IsDigit(arg[0]) {
      TrailingIgnored(arg, tail);
      assert (arg + tail)[0] == arg[0];
    } else if |arg| > 0 {
      assert (arg + tail)[0] == arg[0];
    } else {
      assert arg + tail == tail;
    }
  }

  /** Asking again for the id already held succeeds and changes nothing. */
  lemma CoreidHeldIsNoOp(build: Build, o: Oracles, proc: Process, sim: Sim, n: nat)
    requires 0 < n < COREID_LIMIT && o.validCoreid(n) && sim.coreid == n
    ensures CoreIdOption(build, o, proc, sim, Numeral(n, 10)) == Reply(Ok, proc, sim, [])
  {
    DecimalRoundTrip(n);
    NumeralDigits(n, 10);
  }

  /** The core-id handler keeps the once-only free. */
  lemma CoreIdOptionFreesOnce(build: Build, o: Oracles, proc: Process, sim: Sim, arg: string)
    requires FreedOnce(proc)
    ensures FreedOnce(CoreIdOption(build, o, proc, sim, arg).proc)
  {
  }
}
