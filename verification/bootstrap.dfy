/**
 Bringing an instance up: option parsing and `sim_open` (sim/epiphany/sim-if.c,
 lines 197-346).  Every collaborator call that can fail is a Services flag.
 */
module Bootstrap {
  import opened SimTypes
  import opened Options
  import opened Memory

  /** One command-line option, as the option parser hands it over. */
  datatype Arg =
    | ExternalMemory(setting: Option<string>)          // --epiphany-extenal-memory[=off|on]
    | CoreId(text: string)                             // --coreid COREID
    | Common(accepted: bool, regions: seq<Region>)     // an option of the common simulator framework,
                                                       // and the memory map it leaves when accepted

  /** Every external-memory option carries its argument; the handler cannot cope without one. */
  predicate ArgsCarrySettings(argv: seq<Arg>) {
    forall i :: 0 <= i < |argv| ==> (argv[i].ExternalMemory? ==> argv[i].setting.Some?)
  }

  /** No option of the common framework, so nothing that could change the memory map. */
  predicate OnlyHandlerOptions(argv: seq<Arg>) {
    forall i :: 0 <= i < |argv| ==> !argv[i].Common?
  }

  /** Dispatch one option to its handler.  The core-id option is only in the
      option table of ESIM builds; elsewhere the parser rejects it as unknown. */
  function ApplyArg(build: Build, o: Oracles, proc: Process, sim: Sim, a: Arg): (r: Reply)
    requires a.ExternalMemory? ==> a.setting.Some?
    ensures r.sim.kind == sim.kind && r.sim.pc == sim.pc && r.sim.coremesh == sim.coremesh
    ensures r.sim.regions == (if a.Common? && r.rc == Ok then a.regions else sim.regions)
    ensures !a.CoreId? ==> r.sim.cpu == sim.cpu && r.proc.freed == proc.freed && r.proc.cpuFrees == proc.cpuFrees
    ensures a.CoreId? && !build.emesh ==> r == Reply(Fail, proc, sim, [])
    ensures !a.CoreId? ==> r.sim.coreid == sim.coreid
    ensures r.proc.addExtMem == Toggle(a, proc.addExtMem)
    ensures FreeRecorded(proc, sim.cpu, r.proc, r.sim.cpu)
    ensures o.validCoreid(sim.coreid) ==> o.validCoreid(r.sim.coreid)
  {
    match a
    case ExternalMemory(setting) => ExternalMemoryOption(proc, sim, setting)
    case CoreId(text) =>
      if build.emesh then CoreIdOption(build, o, proc, sim, text) else Reply(Fail, proc, sim, [])
    case Common(accepted, regions) =>
      if accepted then Reply(Ok, proc, sim.(regions := regions), [])
      else Reply(Fail, proc, sim, [])
  }

  /** `sim_parse_args`: hand the options to their handlers in command-line order and
      stop at the first one that fails. */
  function ParseArgs(build: Build, o: Oracles, proc: Process, sim: Sim, argv: seq<Arg>): (r: Reply)
    requires ArgsCarrySettings(argv)
    ensures r.sim.kind == sim.kind && r.sim.pc == sim.pc && r.sim.coremesh == sim.coremesh
    ensures OnlyHandlerOptions(argv) ==> r.sim.regions == sim.regions
    ensures FreeRecorded(proc, sim.cpu, r.proc, r.sim.cpu)
    ensures !build.emesh ==> r.proc.freed == proc.freed && r.sim.cpu == sim.cpu && r.sim.coreid == sim.coreid
    decreases |argv|
  {
    if |argv| == 0 then Reply(Ok, proc, sim, [])
    else
      var h := ApplyArg(build, o, proc, sim, argv[0]);
      if h.rc == Fail then h
      else
        var t := ParseArgs(build, o, h.proc, h.sim, argv[1..]);
        Reply(t.rc, t.proc, t.sim, h.calls + t.calls)
  }

  /** The external-memory setting the options leave behind, read from the end:
      the last "off" or "on" wins; other values and other options do not count. */
  function LastToggle(argv: seq<Arg>, flag: bool): bool {
    if |argv| == 0 then flag
    else
      var a := argv[|argv| - 1];
      if a == ExternalMemory(Some("off")) then false
      else if a == ExternalMemory(Some("on")) then true
      else LastToggle(argv[..|argv| - 1], flag)
  }

  /** One option's effect on the external-memory flag. */
  function Toggle(a: Arg, flag: bool): bool {
    if a == ExternalMemory(Some("off")) then false
    else if a == ExternalMemory(Some("on")) then true
    else flag
  }

  /** Reading the toggles from the front, one option at a time, agrees with reading
      them from the end. */
  lemma {:induction false} LastToggleFront(argv: seq<Arg>, flag: bool)
    requires |argv| > 0
    ensures LastToggle(argv, flag) == LastToggle(argv[1..], Toggle(argv[0], flag))
    decreases |argv|
  {
    if |argv| > 1 {
      var init := argv[..|argv| - 1];
      assert init[1..] == argv[1..][..|argv[1..]| - 1];
      assert argv[1..][|argv[1..]| - 1] == argv[|argv| - 1];
      LastToggleFront(init, flag);
    }
  }

  /** After a successful parse the external-memory flag is the one the last
      "off" or "on" asked for, or what it was before when there is none. */
  lemma {:induction false} ParseArgsSetsLastToggle(build: Build, o: Oracles, proc: Process, sim: Sim, argv: seq<Arg>)
    requires ArgsCarrySettings(argv)
    ensures ParseArgs(build, o, proc, sim, argv).rc == Ok ==>
            ParseArgs(build, o, proc, sim, argv).proc.addExtMem == LastToggle(argv, proc.addExtMem)
    decreases |argv|
  {
    if |argv| > 0 {
      var h := ApplyArg(build, o, proc, sim, argv[0]);
      if h.rc == Ok {
        ParseArgsSetsLastToggle(build, o, h.proc, h.sim, argv[1..]);
        LastToggleFront(argv, proc.addExtMem);
      }
    }
  }

  /** The collaborators sim_open calls, in the order it calls them, and the
      free_state that ends every failed attempt. */
  datatype Call =
    | CpuAllocAll | EsimInit | PreArgvInit | SockserInstall | ParseArgsCall
    | CheckCoreid | ProvisionMemory | AnalyzeProgram | Config | PostArgvInit
    | FreeState

  /** The answers of sim_open's collaborators. */
  datatype Services = Services(
    cpuAlloc: Option<nat>,  // sim_cpu_alloc_all: where the core record lives, or failure
    esimInitOk: bool,       // es_init, through sim_esim_init
    esimCoreid: nat,        // the core id es_init leaves in the zeroed ESIM state
    preArgvOk: bool,        // sim_pre_argv_init
    sockserOk: bool,        // dv_sockser_install
    analyzeOk: bool,        // sim_analyze_program
    configOk: bool,         // sim_config
    postArgvOk: bool        // sim_post_argv_init
  )

  /** The instance as it stands when the options are parsed: the core record
      `sim_cpu_alloc_all` made, with room for the largest extra state; the core id
      es_init left in an ESIM build; no memory, PC 0 and no coremesh writes yet. */
  function FreshSim(build: Build, o: Oracles, s: Services, kind: OpenKind): (r: Sim)
    ensures r.kind == kind
    ensures r.cpu.size == RelocatedSize(build, o.maxExtraBytes)
    ensures s.cpuAlloc.Some? ==> r.cpu.addr == s.cpuAlloc.value
    ensures build.emesh ==> r.coreid == s.esimCoreid
    ensures r.regions == [] && r.pc == 0 && r.coremesh == map[]
  {
    var addr := match s.cpuAlloc case Some(a) => a case None => 0;
    Sim(kind, if build.emesh then s.esimCoreid else 0, Cpu(addr, RelocatedSize(build, o.maxExtraBytes)), [], 0, map[])
  }

  /** What sim_open leaves behind: the instance, or none; the statics; the calls made. */
  datatype Opened = Opened(sd: Option<Sim>, proc: Process, calls: seq<Call>)

  /** Give up: free_state, then return NULL. */
  function Abandon(proc: Process, calls: seq<Call>): Opened {
    Opened(None, proc, calls + [FreeState])
  }

  /** `sim_open`, from the core-record allocation to sim_post_argv_init.  The
      options are handed to their handlers on the instance as the allocation and
      es_init leave it; `OpenChain` says when that happens and what follows. */
  function Open(build: Build, o: Oracles, s: Services, proc: Process, kind: OpenKind, argv: seq<Arg>): (r: Opened)
    requires ArgsCarrySettings(argv)
    ensures r.sd.Some? ==> r.sd.value.kind == kind && r.sd.value.pc == 0 && r.sd.value.coremesh == map[]
    ensures r.sd.Some? && build.emesh && kind == Standalone ==> o.validCoreid(r.sd.value.coreid)
    ensures r.sd.Some? && build.layout.memSize > 0 ==> Mapped(r.sd.value.regions, 0)
    ensures !build.emesh ==> r.proc.freed == proc.freed
    ensures FreedOnce(proc) ==> FreedOnce(r.proc)
  {
    OpenChain(build, o, s, proc, kind, ParseArgs(build, o, proc, FreshSim(build, o, s, kind), argv))
  }

  /** The body of `sim_open` once it is known what sim_parse_args does: `parsed`
      is consulted only after the steps before the parse have succeeded.  A
      failing step ends the attempt at once; a stand-alone ESIM run also needs a
      valid core id once the options are parsed.  Default memory is provisioned
      after the options, with the external-memory flag they left. */
  function OpenChain(build: Build, o: Oracles, s: Services, proc: Process, kind: OpenKind, parsed: Reply): (r: Opened)
    ensures r.sd.Some? ==>
      && parsed.rc.Ok?
      && r.sd.value == parsed.sim.(regions := ProvisionDefaultMemory(build.layout, parsed.proc.addExtMem, parsed.sim.regions))
    ensures r.sd.Some? && build.emesh && kind == Standalone ==> o.validCoreid(r.sd.value.coreid)
    ensures r.proc == (if SetupPasses(build, s) then parsed.proc else proc)
  {
    var c0 := [CpuAllocAll];
    if s.cpuAlloc.None? then Abandon(proc, c0)
    else
      var c1 := c0 + (if build.emesh then [EsimInit] else []);
      if build.emesh && !s.esimInitOk then Abandon(proc, c1)
      else
        var c2 := c1 + [PreArgvInit];
        if !s.preArgvOk then Abandon(proc, c2)
        else
          var c3 := c2 + (if build.sockser then [SockserInstall] else []);
          if build.sockser && !s.sockserOk then Abandon(proc, c3)
          else
            var p := parsed;
            var c4 := c3 + [ParseArgsCall];
            if p.rc == Fail then Abandon(p.proc, c4)
            else
              var needId := build.emesh && kind == Standalone;
              var c5 := c4 + (if needId then [CheckCoreid] else []);
              if needId && !o.validCoreid(p.sim.coreid) then Abandon(p.proc, c5)
              else
                var mem := ProvisionDefaultMemory(build.layout, p.proc.addExtMem, p.sim.regions);
                var c6 := c5 + [ProvisionMemory] + [AnalyzeProgram];
                if !s.analyzeOk then Abandon(p.proc, c6)
                else
                  var c7 := c6 + [Config];
                  if !s.configOk then Abandon(p.proc, c7)
                  else
                    var c8 := c7 + [PostArgvInit];
                    if !s.postArgvOk then Abandon(p.proc, c8)
                    else Opened(Some(p.sim.(regions := mem)), p.proc, c8)
  }

  /** The steps sim_open runs when none of them fails, in order. */
  function Chain(build: Build, kind: OpenKind): seq<Call> {
    [CpuAllocAll] + (if build.emesh then [EsimInit] else []) + [PreArgvInit]
    + (if build.sockser then [SockserInstall] else []) + [ParseArgsCall]
    + (if build.emesh && kind == Standalone then [CheckCoreid] else [])
    + [ProvisionMemory] + [AnalyzeProgram] + [Config] + [PostArgvInit]
  }

  /** Whether step `c` of sim_open succeeds, given what the parse does. */
  predicate Passes(c: Call, o: Oracles, s: Services, parsed: Reply) {
    match c
    case CpuAllocAll => s.cpuAlloc.Some?
    case EsimInit => s.esimInitOk
    case PreArgvInit => s.preArgvOk
    case SockserInstall => s.sockserOk
    case ParseArgsCall => parsed.rc == Ok
    case CheckCoreid => o.validCoreid(parsed.sim.coreid)
    case ProvisionMemory => true
    case AnalyzeProgram => s.analyzeOk
    case Config => s.configOk
    case PostArgvInit => s.postArgvOk
    case FreeState => true
  }

  /** sim_open is a fail-fast chain: it returns an instance exactly when every step
      succeeds, and then it has run them all in order; otherwise it has run the
      steps up to the first failing one, then free_state, and nothing else. */
  lemma OpenFailsFast(build: Build, o: Oracles, s: Services, proc: Process, kind: OpenKind, parsed: Reply)
    ensures var r := OpenChain(build, o, s, proc, kind, parsed);
      var chain := Chain(build, kind);
      && (r.sd.Some? <==> forall i :: 0 <= i < |chain| ==> Passes(chain[i], o, s, parsed))
      && (r.sd.Some? ==> r.calls == chain)
      && (r.sd.None? ==>
            var k := |r.calls| - 2;
            && 0 <= k < |chain|
            && r.calls == chain[..k + 1] + [FreeState]
            && !Passes(chain[k], o, s, parsed)
            && forall i :: 0 <= i < k ==> Passes(chain[i], o, s, parsed))
  {
    var r := OpenChain(build, o, s, proc, kind, parsed);
    var chain := Chain(build, kind);
    if r.sd.None? {
      OpenStopsAtFirstFailure(build, o, s, proc, kind, parsed);
      assert StoppedAtFirstFailure(r.calls, chain, o, s, parsed);
    } else {
      OpenRunsWholeChain(build, o, s, proc, kind, parsed);
    }
  }

  /** A successful open has run every step of the chain, and each succeeded. */
  lemma OpenRunsWholeChain(build: Build, o: Oracles, s: Services, proc: Process, kind: OpenKind, parsed: Reply)
    requires OpenChain(build, o, s, proc, kind, parsed).sd.Some?
    ensures OpenChain(build, o, s, proc, kind, parsed).calls == Chain(build, kind)
    ensures AllPass(Chain(build, kind), o, s, parsed)
  {
    assert SetupPasses(build, s) && ParsePasses(build, o, kind, parsed);
    assert s.analyzeOk && s.configOk && s.postArgvOk;
    var c5 := [CpuAllocAll] + (if build.emesh then [EsimInit] else []) + [PreArgvInit]
              + (if build.sockser then [SockserInstall] else []) + [ParseArgsCall]
              + (if build.emesh && kind == Standalone then [CheckCoreid] else []);
    ThroughParsePasses(build, o, s, kind, parsed);
    AllPassAppend(c5, [ProvisionMemory], o, s, parsed);
    AllPassAppend(c5 + [ProvisionMemory], [AnalyzeProgram], o, s, parsed);
    AllPassAppend(c5 + [ProvisionMemory] + [AnalyzeProgram], [Config], o, s, parsed);
    AllPassAppend(c5 + [ProvisionMemory] + [AnalyzeProgram] + [Config], [PostArgvInit], o, s, parsed);
  }

  /** The shape of a failed attempt: the calls are a prefix of the chain whose last
      step is the first that fails, followed by free_state. */
  predicate StoppedAtFirstFailure(calls: seq<Call>, chain: seq<Call>, o: Oracles, s: Services, parsed: Reply) {
    var k := |calls| - 2;
    && 0 <= k < |chain|
    && calls == chain[..k + 1] + [FreeState]
    && !Passes(chain[k], o, s, parsed)
    && forall i :: 0 <= i < k ==> Passes(chain[i], o, s, parsed)
  }

  /** When sim_open gives up, it has stopped at the first failing step. */
  lemma OpenStopsAtFirstFailure(build: Build, o: Oracles, s: Services, proc: Process, kind: OpenKind, parsed: Reply)
    requires OpenChain(build, o, s, proc, kind, parsed).sd.None?
    ensures StoppedAtFirstFailure(OpenChain(build, o, s, proc, kind, parsed).calls, Chain(build, kind), o, s, parsed)
  {
    if !SetupPasses(build, s) {
      SetupFailureStops(build, o, s, proc, kind, parsed);
    } else if !ParsePasses(build, o, kind, parsed) {
      ParseFailureStops(build, o, s, proc, kind, parsed);
    } else {
      LateFailureStops(build, o, s, proc, kind, parsed);
    }
  }

  /** The steps before the options are parsed all succeed. */
  predicate SetupPasses(build: Build, s: Services) {
    s.cpuAlloc.Some? && (build.emesh ==> s.esimInitOk) && s.preArgvOk && (build.sockser ==> s.sockserOk)
  }

  /** The parse, and the core-id check where it runs, succeed. */
  predicate ParsePasses(build: Build, o: Oracles, kind: OpenKind, parsed: Reply) {
    parsed.rc == Ok && (build.emesh && kind == Standalone ==> o.validCoreid(parsed.sim.coreid))
  }

  lemma SetupFailureStops(build: Build, o: Oracles, s: Services, proc: Process, kind: OpenKind, parsed: Reply)
    requires !SetupPasses(build, s)
    ensures StoppedAtFirstFailure(OpenChain(build, o, s, proc, kind, parsed).calls, Chain(build, kind), o, s, parsed)
  {
    var chain := Chain(build, kind);
    if s.cpuAlloc.None? {
      FirstFailure(chain, [], CpuAllocAll, chain[1..], o, s, parsed);
    } else if build.emesh && !s.esimInitOk {
      FirstFailure(chain, [CpuAllocAll], EsimInit, chain[2..], o, s, parsed);
    } else {
      PrepareFailureStops(build, o, s, proc, kind, parsed);
    }
  }

  lemma PrepareFailureStops(build: Build, o: Oracles, s: Services, proc: Process, kind: OpenKind, parsed: Reply)
    requires s.cpuAlloc.Some? && (build.emesh ==> s.esimInitOk) && !SetupPasses(build, s)
    ensures StoppedAtFirstFailure(OpenChain(build, o, s, proc, kind, parsed).calls, Chain(build, kind), o, s, parsed)
  {
    var chain := Chain(build, kind);
    var c1 := [CpuAllocAll] + (if build.emesh then [EsimInit] else []);
    assert AllPass(c1, o, s, parsed);
    if !s.preArgvOk {
      FirstFailure(chain, c1, PreArgvInit, chain[|c1| + 1..], o, s, parsed);
    } else {
      AllPassAppend(c1, [PreArgvInit], o, s, parsed);
      FirstFailure(chain, c1 + [PreArgvInit], SockserInstall, chain[|c1| + 2..], o, s, parsed);
    }
  }

  lemma ParseFailureStops(build: Build, o: Oracles, s: Services, proc: Process, kind: OpenKind, parsed: Reply)
    requires SetupPasses(build, s) && !ParsePasses(build, o, kind, parsed)
    ensures StoppedAtFirstFailure(OpenChain(build, o, s, proc, kind, parsed).calls, Chain(build, kind), o, s, parsed)
  {
    var chain := Chain(build, kind);
    var c1 := [CpuAllocAll] + (if build.emesh then [EsimInit] else []);
    var c3 := c1 + [PreArgvInit] + (if build.sockser then [SockserInstall] else []);
    assert AllPass(c1, o, s, parsed);
    AllPassAppend(c1, [PreArgvInit], o, s, parsed);
    AllPassAppend(c1 + [PreArgvInit], if build.sockser then [SockserInstall] else [], o, s, parsed);
    if parsed.rc == Fail {
      FirstFailure(chain, c3, ParseArgsCall, chain[|c3| + 1..], o, s, parsed);
    } else {
      AllPassAppend(c3, [ParseArgsCall], o, s, parsed);
      FirstFailure(chain, c3 + [ParseArgsCall], CheckCoreid, chain[|c3| + 2..], o, s, parsed);
    }
  }

  lemma LateFailureStops(build: Build, o: Oracles, s: Services, proc: Process, kind: OpenKind, parsed: Reply)
    requires SetupPasses(build, s) && ParsePasses(build, o, kind, parsed)
    requires OpenChain(build, o, s, proc, kind, parsed).sd.None?
    ensures StoppedAtFirstFailure(OpenChain(build, o, s, proc, kind, parsed).calls, Chain(build, kind), o, s, parsed)
  {
    var chain := Chain(build, kind);
    var c5 := [CpuAllocAll] + (if build.emesh then [EsimInit] else []) + [PreArgvInit]
              + (if build.sockser then [SockserInstall] else []) + [ParseArgsCall]
              + (if build.emesh && kind == Standalone then [CheckCoreid] else []);
    ThroughParsePasses(build, o, s, kind, parsed);
    var p := c5 + [ProvisionMemory];
    AllPassAppend(c5, [ProvisionMemory], o, s, parsed);
    if !s.analyzeOk {
      FirstFailure(chain, p, AnalyzeProgram, [Config] + [PostArgvInit], o, s, parsed);
    } else {
      AllPassAppend(p, [AnalyzeProgram], o, s, parsed);
      if !s.configOk {
        FirstFailure(chain, p + [AnalyzeProgram], Config, [PostArgvInit], o, s, parsed);
      } else {
        AllPassAppend(p + [AnalyzeProgram], [Config], o, s, parsed);
        FirstFailure(chain, p + [AnalyzeProgram] + [Config], PostArgvInit, [], o, s, parsed);
      }
    }
  }

  /** Once the setup, the parse and the core-id check have succeeded, every step
      up to the core-id check has. */
  lemma ThroughParsePasses(build: Build, o: Oracles, s: Services, kind: OpenKind, parsed: Reply)
    requires SetupPasses(build, s) && ParsePasses(build, o, kind, parsed)
    ensures AllPass([CpuAllocAll] + (if build.emesh then [EsimInit] else []) + [PreArgvInit]
              + (if build.sockser then [SockserInstall] else []) + [ParseArgsCall]
              + (if build.emesh && kind == Standalone then [CheckCoreid] else []), o, s, parsed)
  {
  }

  lemma AllPassAppend(a: seq<Call>, b: seq<Call>, o: Oracles, s: Services, parsed: Reply)
    requires AllPass(a, o, s, parsed) && AllPass(b, o, s, parsed)
    ensures AllPass(a + b, o, s, parsed)
  {
  }

  /** A stand-alone open in an ESIM build whose options leave no valid core id
      gives up right after the check, even though the parse succeeded. */
  lemma StandaloneOpenNeedsCoreid(build: Build, o: Oracles, s: Services, proc: Process, parsed: Reply)
    requires build.emesh && SetupPasses(build, s) && parsed.rc == Ok && !o.validCoreid(parsed.sim.coreid)
    ensures var r := OpenChain(build, o, s, proc, Standalone, parsed);
      && r.sd.None?
      && r.proc == parsed.proc
      && r.calls[|r.calls| - 2..] == [CheckCoreid, FreeState]
  {
  }

  /** When the options attach no memory, a successful open has exactly the default
      regions: region 0 alone with external memory off, region 0 and both banks
      with it on. */
  lemma OpenProvisionsDefaults(build: Build, o: Oracles, s: Services, proc: Process, kind: OpenKind, parsed: Reply)
    requires WellFormed(build.layout) && parsed.sim.regions == []
    ensures var r := OpenChain(build, o, s, proc, kind, parsed);
      r.sd.Some? ==>
        r.sd.value.regions ==
          (if parsed.proc.addExtMem then [Region0(build.layout), Bank0(build.layout), Bank1(build.layout)]
           else [Region0(build.layout)])
  {
    ProvisionFromEmpty(build.layout);
  }

  /** Every failed attempt calls free_state exactly once, and a successful one
      never does. */
  lemma OpenFreesStateOnFailureOnly(build: Build, o: Oracles, s: Services, proc: Process, kind: OpenKind, parsed: Reply)
    ensures var r := OpenChain(build, o, s, proc, kind, parsed);
      multiset(r.calls)[FreeState] == (if r.sd.None? then 1 else 0)
  {
    var r := OpenChain(build, o, s, proc, kind, parsed);
    ChainHasNoFreeState(build, kind);
    if r.sd.None? {
      OpenStopsAtFirstFailure(build, o, s, proc, kind, parsed);
      FreeStateCount(r.calls, Chain(build, kind), true, o, s, parsed);
    } else {
      OpenRunsWholeChain(build, o, s, proc, kind, parsed);
      FreeStateCount(r.calls, Chain(build, kind), false, o, s, parsed);
    }
  }

  /** free_state is never one of the chain's steps. */
  lemma ChainHasNoFreeState(build: Build, kind: OpenKind)
    ensures FreeState !in Chain(build, kind)
  {
  }

  lemma FreeStateCount(calls: seq<Call>, chain: seq<Call>, failed: bool, o: Oracles, s: Services, parsed: Reply)
    requires FreeState !in chain
    requires failed ==> StoppedAtFirstFailure(calls, chain, o, s, parsed)
    requires !failed ==> calls == chain
    ensures multiset(calls)[FreeState] == (if failed then 1 else 0)
  {
    if failed {
      var k := |calls| - 2;
      assert FreeState !in chain[..k + 1];
      assert multiset(calls) == multiset(chain[..k + 1]) + multiset{FreeState};
    }
  }

  /** Every step in `cs` succeeds. */
  predicate AllPass(cs: seq<Call>, o: Oracles, s: Services, parsed: Reply) {
    forall c :: c in cs ==> Passes(c, o, s, parsed)
  }

  /** A chain whose steps before `f` all succeed first fails at `f`. */
  lemma FirstFailure(chain: seq<Call>, pre: seq<Call>, f: Call, rest: seq<Call>, o: Oracles, s: Services, parsed: Reply)
    requires chain == pre + [f] + rest
    requires AllPass(pre, o, s, parsed) && !Passes(f, o, s, parsed)
    ensures StoppedAtFirstFailure(pre + [f] + [FreeState], chain, o, s, parsed)
  {
    assert chain[..|pre| + 1] == pre + [f];
    forall i | 0 <= i < |pre| ensures Passes(chain[i], o, s, parsed) {
      assert chain[i] == pre[i];
    }
  }

}
