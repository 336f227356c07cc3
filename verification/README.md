# Epiphany simulator bootstrap, modelled in Dafny

This project models the start-up logic of the Epiphany instruction-set simulator
in `sim/epiphany/sim-if.c`. One simulator process runs one core of an Epiphany
mesh. When ESIM, the mesh-simulation layer, is compiled in, the process talks to
sibling processes through a shared core-id and state library (`es_*`).

The model covers:

- **Option handlers.**
  - `--epiphany-extenal-memory[=off|on]` (the option name carries the source's
    spelling) toggles a process-wide flag.
  - `--coreid COREID` runs its checks in a fixed order:
    - a range check on a base-0 `strtoul` reading of the argument;
    - membership of the id in the node's topology;
    - an "already held" no-op;
    - reservation of the id;
    - relocation of the core record.
- **`sim_esim_cpu_relocate`.** It replaces the instance's core record
  (`sim_cpu`) with one of `sizeof (sim_cpu) + extra_bytes` bytes. A static
  `freed` flag ensures the original record is freed at most once in the life
  of the process.
- **Default-memory provisioning.** Region 0 and, when the flag is on, the two
  external banks are each attached only if a probe of their start address
  finds no memory.
- **`sim_open`'s fail-fast chain.** The chain runs:
  1. core-record allocation;
  2. ESIM init;
  3. pre-argv init;
  4. socket-serial install;
  5. option parsing;
  6. the stand-alone core-id check;
  7. memory provisioning;
  8. program analysis;
  9. config;
  10. post-argv init.

  Any failure calls `free_state` and returns NULL.
- **`sim_create_inferior`.** It sets the PC to the program's start address, or
  to 0 when there is no program. In an ESIM build it then rejects an invalid
  core id, or publishes the id in coremesh register 1 before waiting for the
  other cores.
- **The process around the instances.** A debugger may open instances, change
  options with "sim" commands, start the program and close the instance, as
  often as it likes. The statics survive all of this.

State is immutable data and every step is a pure function:

- `Process` holds the statics of the file: the external-memory flag, `freed`,
  and the records `sim_esim_cpu_relocate` hands to `sim_cpu_free`.
- `Sim` is one instance: its kind, its ESIM core id, its core record, its
  attached regions in attach order, its PC and the coremesh registers written so
  far.
- Collaborators whose code is not in this file become parameters:
  - `Oracles` holds the answers of `es_valid_coreid`, `es_set_coreid`,
    `es_set_cpu_state` and `cgen_cpu_max_extra_bytes`.
  - `Services` holds the success of each step `sim_open` delegates.
  - `Build` holds the compile-time switches (`WITH_EMESH_SIM`,
    `HAVE_DV_SOCKSER`), `sizeof (sim_cpu)`, and the default-memory `Layout`.
    The `EPIPHANY_DEFAULT_*` constants come from `sim-main.h`, which is not part
    of this model.
- Calls that matter for ordering are recorded in logs, so "not attempted" and
  "called exactly once" can be stated:
  - `EsimCall` logs reservation, placement and the barrier.
  - `Call` logs the steps of `sim_open` and `free_state`.

Modules, one file each:

- `CString` (`cstring.dfy`): `isdigit`, `isspace` and `strtoul` with base 0, as
  section 7.22.1.4 of ISO C11 describes them, plus a numeral formatter that
  `StrToUL` inverts (see the round-trip lemmas).
- `SimTypes` (`types.dfy`): the records.
- `Options` (`options.dfy`): the two handlers and relocation.
- `Memory` (`memory.dfy`): provisioning.
- `Bootstrap` (`bootstrap.dfy`): option parsing and `sim_open`.
- `Inferior` (`inferior.dfy`): `sim_create_inferior`.
- `Lifetime` (`lifetime.dfy`): the process.

Four behaviours of the code are easy to miss, and the model keeps them:

- The old core record is freed at most once per **process**, not per instance,
  because `freed` is a function-level static.
- Turning external memory on provisions a bank only when its start address is
  still unmapped. It does not provision both banks unconditionally.
- The core-id argument must begin with a decimal digit, so white space and signs
  are refused. Text after the number is never checked, because `endp` is unused.
- After a successful reservation, a relocation failure returns failure but keeps
  the new core id. There is no rollback.

## Model

| member | source | states |
|---|---|---|
| CString.StrToUL | sim/epiphany/sim-if.c:93 | The result never exceeds ULONG_MAX and `end` stays inside the string. When nothing is converted the value is 0. For an argument starting with a digit, the result is the clamped value of the longest base-0 constant at the front. |
| CString.DecimalRoundTrip | sim/epiphany/sim-if.c:93 | Every number written in decimal reads back as itself (clamped to ULONG_MAX), and `end` is the numeral's length. |
| CString.HexRoundTrip | sim/epiphany/sim-if.c:93 | "0x" followed by the hex numeral of n reads back as n, with `end` past the last digit. |
| CString.OctalRoundTrip | sim/epiphany/sim-if.c:93 | "0" followed by the octal numeral of n reads back as n, with `end` past the last digit. |
| CString.TrailingIgnored | sim/epiphany/sim-if.c:92-93 | For digit-led text, appending a tail that starts with a character ending every base-0 digit run changes neither the value nor `end`. |
| Options.ExternalMemoryOption | sim/epiphany/sim-if.c:79-88 | Always OK, and only the flag can change. "off" clears it, "on" sets it, and any other argument leaves the statics exactly as they were. The argument must be present. |
| Options.Relocate | sim/epiphany/sim-if.c:149-164 | It asks ESIM once for a record of `sizeof (sim_cpu) + extra_bytes` bytes. It fails exactly when ESIM returns NULL, and then changes nothing. On success the new record becomes the instance's record and `freed` is set. The old record is freed only if nothing was freed before in the process. |
| Options.RelocateFreesOnce | sim/epiphany/sim-if.c:151-161 | Relocation keeps the once-only free: at most one record is ever freed, and `freed` says whether it has been. |
| Options.CoreIdOption | sim/epiphany/sim-if.c:91-126 | OK exactly when: the argument is digit-led and reads as an id in [1, 4095]; the id belongs to the node; and either it is already held, or both reservation and relocation succeed. The id is installed exactly when it passes the checks and reservation succeeds, with no rollback if relocation then fails. Reservation is attempted exactly when the id passes the checks and is not already held. Relocation follows only a successful reservation, and its reply, with the reservation logged first, is the handler's reply: the relocated record of `sizeof (sim_cpu) + cgen_cpu_max_extra_bytes ()` bytes is installed and `freed` is set when it succeeds. Without a relocation attempt, including the already-held no-op, the statics and the core record are left alone. |
| Options.CoreIdChecks | sim/epiphany/sim-if.c:96-125 | The same check chain, stated on the digit test and the value `strtoul` returned. After a successful reservation the reply is exactly that of relocating the record with the new id in place; on every other path the statics and the core record are unchanged. Only the core id and the core record of the instance can change. |
| Options.CoreidRejectsOutOfRange | sim/epiphany/sim-if.c:93-101 | Any number that is 0 or at least 4096 fails with nothing touched and no ESIM call made, whether written in decimal, 0x-hex or 0-octal. |
| Options.CoreidSpellingsAgree | sim/epiphany/sim-if.c:93 | The decimal, hex and octal spellings of a number lead to the same outcome. |
| Options.CoreidIgnoresTrailing | sim/epiphany/sim-if.c:92-93 | Any tail after a character that stops the number leaves the outcome unchanged. |
| Options.CoreidHeldIsNoOp | sim/epiphany/sim-if.c:111-112 | Asking for the id already held succeeds, changes nothing and calls nothing. |
| Options.CoreIdOptionFreesOnce | sim/epiphany/sim-if.c:121-124 | The core-id handler keeps the once-only free. |
| Memory.EnsureRegion | sim/epiphany/sim-if.c:304-305 | Attaching is append-only and adds at most one region. It adds the region exactly when its start address is unmapped. The addresses mapped afterwards are exactly those mapped before, plus the new range when it was added. |
| Memory.ProvisionDefaultMemory | sim/epiphany/sim-if.c:304-321 | Regions are never removed and mapped addresses stay mapped. Region 0 comes first exactly when address 0 was unmapped. With the flag off, region 0 is added exactly when address 0 was unmapped and nothing else is added; with it on, the block is the three probes in order. Every added region is region 0, bank 0 or bank 1. Afterwards the probed addresses are mapped. |
| Memory.ProvisionIdempotent | sim/epiphany/sim-if.c:304-321 | Running the block a second time adds nothing. |
| Memory.ProvisionProbesInitialMap | sim/epiphany/sim-if.c:304-321 | With non-overlapping defaults, the block appends exactly the defaults whose start was unmapped beforehand, in the order region 0, bank 0, bank 1 (the banks only with the flag on). |
| Memory.ProvisionFromEmpty | sim/epiphany/sim-if.c:304-321 | On an empty map: flag off gives region 0 alone; flag on gives region 0, bank 0 and bank 1. |
| Bootstrap.ApplyArg | sim/epiphany/sim-if.c:129-139 | The core-id option exists only in ESIM builds. Otherwise only the external-memory option moves the flag. No option frees a record except through relocation, and no option replaces a valid core id with an invalid one. Only an accepted framework option changes the memory map. |
| Bootstrap.FreshSim | sim/epiphany/sim-if.c:204-221 | The instance the options are parsed on: its kind, a core record of `sizeof (sim_cpu) + cgen_cpu_max_extra_bytes ()` bytes where `sim_cpu_alloc_all` put it, the core id `es_init` left in an ESIM build, no memory, PC 0 and no coremesh writes. |
| Bootstrap.ParseArgs | sim/epiphany/sim-if.c:262-266 | Parsing keeps the once-only free and frees at most the record the instance was opened with. Options of this file never change the memory map. Outside ESIM builds it never touches the core record or the core id. |
| Bootstrap.ParseArgsSetsLastToggle | sim/epiphany/sim-if.c:79-88 | After a successful parse, the external-memory flag is what the last "off" or "on" asked for, or its previous value when there is none. |
| Bootstrap.Open | sim/epiphany/sim-if.c:197-346 | A returned instance has PC 0 and no coremesh writes. In a stand-alone ESIM build it holds a valid core id, and with a non-empty region 0 address 0 is mapped. The once-only free is kept. |
| Bootstrap.OpenChain | sim/epiphany/sim-if.c:209-346 | An instance is returned only after a successful parse. It is the parsed instance with default memory provisioned, using the flag the options left. Once the steps before the parse have succeeded, the statics are those the option handlers left, whether or not the attempt then fails: nothing is rolled back. |
| Bootstrap.OpenFailsFast | sim/epiphany/sim-if.c:209-346 | An instance is returned exactly when every step of the chain succeeds, and then all steps ran in order. Otherwise the steps up to and including the first failing one ran, followed by `free_state`. |
| Bootstrap.OpenStopsAtFirstFailure | sim/epiphany/sim-if.c:209-346 | A failed attempt ran a prefix of the chain. Its last step is the first failing one and is followed by `free_state`. |
| Bootstrap.OpenFreesStateOnFailureOnly | sim/epiphany/sim-if.c:209-346 | `free_state` is called exactly once on every failure path and never on success. |
| Bootstrap.StandaloneOpenNeedsCoreid | sim/epiphany/sim-if.c:268-279 | A stand-alone ESIM open whose options leave no valid core id fails at the core-id check, after a successful parse, and frees the state. |
| Bootstrap.OpenProvisionsDefaults | sim/epiphany/sim-if.c:304-321 | When the options attach no memory, a successful open has region 0 alone (flag off) or region 0 and both banks (flag on). |
| Inferior.CreateInferior | sim/epiphany/sim-if.c:397-446 | The PC becomes the entry point, or 0 without a program, even when the call then fails. In an ESIM build it fails exactly when the core id is invalid, without touching coremesh. Otherwise it writes the id to coremesh register 1 and then waits for the other cores. Nothing else changes. |
| Lifetime.Step | sim/epiphany/sim-if.c:387-395 | Closing drops the instance and keeps the statics. Commands and starts without an instance do nothing. |
| Lifetime.RunFreesOnce | sim/epiphany/sim-if.c:149-164 | However many instances are opened, reconfigured, started and closed, the once-only free holds. |
| Lifetime.ProcessFreesAtMostOnce | sim/epiphany/sim-if.c:151-161 | From process start, the free inside `sim_esim_cpu_relocate` (line 159) runs at most once. |
| Lifetime.RunKeepsStandaloneCoreid | sim/epiphany/sim-if.c:268-278 | In an ESIM build, a stand-alone instance always holds a valid core id, whatever commands follow. |
| Lifetime.StandaloneStartSucceeds | sim/epiphany/sim-if.c:424-437 | In an ESIM build, starting the program on a stand-alone instance never fails for want of a core id. It publishes the held id in coremesh register 1. |

## Left out

- `es_wait_run` is an indefinitely blocking cross-process barrier. It is only recorded as the last call of `sim_create_inferior`.
- The internals of `es_init`, `es_valid_coreid`, `es_set_coreid` and `es_set_cpu_state` are not modelled; each is an oracle. The cluster constants on lines 176-185 only feed `es_init`.
- A failed `es_set_coreid` is assumed to leave the held core id unchanged.
- `es_init` is assumed to leave a core id in the state; that id is a `Services` value.
- `sim_parse_args` and the option table machinery are not part of this model. Parsing is modelled as handing each option to its handler in command-line order and stopping at the first failure. An option of the common framework either fails or leaves an arbitrary memory map, which covers the framework's options that add and delete regions.
- The option table guards the core-id option with `EMESH_SIM` (line 135), while the handler is compiled under `WITH_EMESH_SIM`. The model uses a single switch, so the core-id option exists exactly in ESIM builds.
- The cgen descriptor, disassembler binding, `cgen_init` and `cgen_init_accurate_fpu` (lines 348-384) are foreign calls, and the last one concerns floating point. They run after the chain and cannot fail.
- The profiling-hook loop on lines 365-373 counts with `c` but indexes processors with `i`. That `i` is left at `MAX_NR_PROCESSORS` by the loop before it. The loop is not modelled.
- `current_state`, `is_sim_opened`, `print_epiphany_misc_cpu` and all `sim_io_eprintf` messages are not modelled; they are globals for the debugger and output only.
- The `WITH_HW` path (line 301), the `EPIPHANY_LINUX` control registers in `sim_create_inferior`, and the `#if 0` blocks are not modelled.
- Nothing before `sim_parse_args` is assumed to attach memory or set the PC: the instance starts with no regions and PC 0.
- Memory.EnsureRegion: an attach whose range overlaps memory already attached is not modelled. The framework's attach code is not part of this model; the probe only checks the start address, and the model appends the region regardless.
- Lifetime.ProcessFreesAtMostOnce: counts only the free inside `sim_esim_cpu_relocate`. The `sim_cpu_free` calls that `free_state` and `sim_close` make through `sim_cpu_free_all` (lines 71 and 394) are not counted, because what they release is not modelled.
- What `free_state` and `sim_close` release (`es_cleanup`, `sim_cpu_free_all`) is not modelled. `free_state` is recorded as a call, and closing drops the instance.
- Options.ExternalMemoryOption: requires the argument to be present. The option is declared with an optional argument, but the handler calls `strcmp` on it without a NULL check, so a missing argument is undefined behaviour.
- Inferior.CreateInferior: the PC and the entry address are unbounded numbers. The width of `SIM_ADDR` comes from headers that are not part of this model.
- CString.StrToUL: ULONG_MAX is taken as 2^64-1, the LP64 value. The `(unsigned)` cast after the range check cannot wrap, because the value is below 4096.
