/**
 Default-memory provisioning in `sim_open` (sim/epiphany/sim-if.c, lines
 298-321, the build without WITH_HW).  Each default region is attached only when
 a one-byte read at its start address finds no memory there, so memory the user
 mapped on the command line is never replaced.
 */
module Memory {
  import opened SimTypes

  predicate Covers(r: Region, addr: nat) {
    r.base <= addr < r.base + r.len
  }

  /** `sim_core_read_buffer (sd, NULL, read_map, &c, addr, 1) != 0`: some attached
      region backs `addr`. */
  predicate Mapped(regions: seq<Region>, addr: nat) {
    exists i :: 0 <= i < |regions| && Covers(regions[i], addr)
  }

  /** `regions` is the start of `more`: attaching only ever appends. */
  predicate Extends(regions: seq<Region>, more: seq<Region>) {
    |regions| <= |more| && more[..|regions|] == regions
  }

  /** Probe `base` and, when nothing backs it, run "memory region base,len". */
  function EnsureRegion(regions: seq<Region>, base: nat, len: nat): (r: seq<Region>)
    ensures Extends(regions, r)
    ensures |r| <= |regions| + 1
    ensures |r| == |regions| + 1 <==> !Mapped(regions, base)
    ensures |r| == |regions| + 1 ==> r[|regions|] == Region(base, len)
    ensures forall a: nat :: Mapped(r, a) <==> Mapped(regions, a) || (!Mapped(regions, base) && base <= a < base + len)
  {
    if Mapped(regions, base) then regions
    else
      var r := regions + [Region(base, len)];
      assert forall a: nat :: Mapped(r, a) <==> Mapped(regions, a) || base <= a < base + len by {
        forall a: nat ensures Mapped(r, a) <==> Mapped(regions, a) || base <= a < base + len {
          if Mapped(regions, a) {
            var i :| 0 <= i < |regions| && Covers(regions[i], a);
            assert r[i] == regions[i];
          }
          if base <= a < base + len {
            assert Covers(r[|regions|], a);
          }
        }
      }
      r
  }

  function Region0(l: Layout): Region { Region(0, l.memSize) }
  function Bank0(l: Layout): Region { Region(l.bank0Start, l.bankSize) }
  function Bank1(l: Layout): Region { Region(l.bank1Start, l.bankSize) }

  /** The provisioning block: region 0 first, then, when external memory is on,
      bank 0 and bank 1, each probed against everything attached before it. */
  function ProvisionDefaultMemory(l: Layout, addExtMem: bool, regions: seq<Region>): (r: seq<Region>)
    ensures Extends(regions, r)
    ensures forall a: nat :: Mapped(regions, a) ==> Mapped(r, a)
    ensures |r| > |regions| && r[|regions|] == Region0(l) <==> !Mapped(regions, 0)
    ensures !addExtMem ==> |r| <= |regions| + 1
    ensures forall i :: |regions| <= i < |r| ==> r[i] in {Region0(l), Bank0(l), Bank1(l)}
    ensures l.memSize > 0 ==> Mapped(r, 0)
    ensures addExtMem && l.bankSize > 0 ==> Mapped(r, l.bank0Start) && Mapped(r, l.bank1Start)
    ensures !addExtMem ==> r == (if Mapped(regions, 0) then regions else regions + [Region0(l)])
    ensures addExtMem ==>
      r == EnsureRegion(EnsureRegion(EnsureRegion(regions, 0, l.memSize), l.bank0Start, l.bankSize), l.bank1Start, l.bankSize)
  {
    var r0 := EnsureRegion(regions, 0, l.memSize);
    if addExtMem then
      var r1 := EnsureRegion(r0, l.bank0Start, l.bankSize);
      var r2 := EnsureRegion(r1, l.bank1Start, l.bankSize);
      assert |r2| > |regions| && r2[|regions|] == Region0(l) ==> !Mapped(regions, 0) by {
        if Mapped(regions, 0) && |r2| > |regions| {
          assert r0 == regions;
          if |r1| > |regions| {
            assert r2[|regions|] == r1[|regions|] == Bank0(l);
            assert Mapped(r1, 0);
          } else {
            assert r2[|regions|] == Bank1(l);
            assert Mapped(r1, 0);
          }
        }
      }
      r2
    else
      r0
  }

  /** The three default ranges are non-empty and do not overlap. */
  predicate WellFormed(l: Layout) {
    && l.memSize > 0 && l.bankSize > 0
    && l.memSize <= l.bank0Start && l.memSize <= l.bank1Start
    && (l.bank0Start + l.bankSize <= l.bank1Start || l.bank1Start + l.bankSize <= l.bank0Start)
  }

  /** Running the block a second time attaches nothing. */
  lemma ProvisionIdempotent(l: Layout, addExtMem: bool, regions: seq<Region>)
    requires l.memSize > 0 && l.bankSize > 0
    ensures ProvisionDefaultMemory(l, addExtMem, ProvisionDefaultMemory(l, addExtMem, regions))
            == ProvisionDefaultMemory(l, addExtMem, regions)
  {
    var r := ProvisionDefaultMemory(l, addExtMem, regions);
    assert EnsureRegion(r, 0, l.memSize) == r;
    if addExtMem {
      assert EnsureRegion(r, l.bank0Start, l.bankSize) == r;
      assert EnsureRegion(r, l.bank1Start, l.bankSize) == r;
    }
  }

  /** The default regions whose start is not yet backed, in provisioning order. */
  function Missing(regions: seq<Region>, defaults: seq<Region>): seq<Region>
  {
    if |defaults| == 0 then []
    else (if Mapped(regions, defaults[0].base) then [] else [defaults[0]]) + Missing(regions, defaults[1..])
  }

  /** The regions the block may attach: region 0, then the banks when external memory is on. */
  function Defaults(l: Layout, addExtMem: bool): seq<Region> {
    if addExtMem then [Region0(l), Bank0(l), Bank1(l)] else [Region0(l)]
  }

  /** With non-overlapping defaults, attaching one default never hides another's
      start, so each is provisioned exactly when its start was unmapped before
      the block ran. */
  lemma ProvisionProbesInitialMap(l: Layout, addExtMem: bool, regions: seq<Region>)
    requires WellFormed(l)
    ensures ProvisionDefaultMemory(l, addExtMem, regions) == regions + Missing(regions, Defaults(l, addExtMem))
  {
    var r0 := EnsureRegion(regions, 0, l.memSize);
    assert Mapped(r0, l.bank0Start) == Mapped(regions, l.bank0Start);
    assert Mapped(r0, l.bank1Start) == Mapped(regions, l.bank1Start);
    var r1 := EnsureRegion(r0, l.bank0Start, l.bankSize);
    assert Mapped(r1, l.bank1Start) == Mapped(regions, l.bank1Start);
    var m0 := if Mapped(regions, 0) then [] else [Region0(l)];
    var m1 := if Mapped(regions, l.bank0Start) then [] else [Bank0(l)];
    var m2 := if Mapped(regions, l.bank1Start) then [] else [Bank1(l)];
    assert r0 == regions + m0;
    var d := Defaults(l, addExtMem);
    if addExtMem {
      assert d[1..] == [Bank0(l), Bank1(l)];
      assert d[1..][1..] == [Bank1(l)];
      assert Missing(regions, d[1..][1..]) == m2;
      assert Missing(regions, d) == m0 + (m1 + m2);
      assert r1 == regions + m0 + m1;
    } else {
      assert Missing(regions, d) == m0;
    }
  }

  /** With nothing mapped by the user: external memory off attaches only region 0;
      on attaches region 0, bank 0 and bank 1, in that order. */
  lemma ProvisionFromEmpty(l: Layout)
    requires WellFormed(l)
    ensures ProvisionDefaultMemory(l, false, []) == [Region0(l)]
    ensures ProvisionDefaultMemory(l, true, []) == [Region0(l), Bank0(l), Bank1(l)]
  {
    var d := Defaults(l, true);
    assert d[1..] == [Bank0(l), Bank1(l)] && d[1..][1..] == [Bank1(l)];
    assert Missing([], d[1..][1..]) == [Bank1(l)];
    assert Missing([], d) == [Region0(l), Bank0(l), Bank1(l)];
    ProvisionProbesInitialMap(l, true, []);
    assert Missing([], Defaults(l, false)) == [Region0(l)];
    ProvisionProbesInitialMap(l, false, []);
  }
}
