// The two boot-time PMP policies, pmp_initialization_M_mode_only and
// pmp_initialization_U_mode_support.  Each gets the PMP device (which may be
// missing), resets it, then commits its entries one by one in index order;
// every configASSERT that fails ends in vAssertCalled, which never returns,
// so the policy stops there with the entries written so far.
module PmpPolicy {
  import E = PmpEncoding
  import opened PmpDevice
  import opened PmpMatch

  /** Completed: the policy returned.  Halted: a configASSERT failed. */
  datatype Outcome = Completed | Halted

  /** One metal_pmp_set_region call: entry index, descriptor, address register value. */
  datatype Request = Request(region: nat, cfg: Config, addr: bv32)

  /**
   * Committing a plan: requests are written in order, each reporting the
   * driver's status; the first nonzero status halts, so later requests are
   * never issued.
   */
  function Commit(t: seq<Entry>, plan: seq<Request>, statuses: seq<int>): (res: (seq<Entry>, Outcome))
    requires |statuses| == |plan|
    ensures |res.0| == |t|
    ensures res.1 == Halted <==> exists k :: 0 <= k < |statuses| && statuses[k] != 0
    decreases |plan|
  {
    if plan == [] then (t, Completed)
    else if statuses[0] != 0 then (t, Halted)
    else
      assert forall k :: 1 <= k < |statuses| ==> statuses[k] == statuses[1..][k - 1];
      Commit(WriteEntry(t, plan[0].region, Entry(plan[0].cfg, plan[0].addr)), plan[1..], statuses[1..])
  }

  /**
   * Fail closed: when request k is the first to fail, the device holds
   * exactly the effect of requests 0..k-1 and the policy halts.
   */
  lemma {:induction false} CommitStopsAtFailure(t: seq<Entry>, plan: seq<Request>, statuses: seq<int>, k: nat)
    requires |statuses| == |plan| && k < |plan| && statuses[k] != 0
    requires forall j :: 0 <= j < k ==> statuses[j] == 0
    ensures Commit(t, plan, statuses) == (Commit(t, plan[..k], statuses[..k]).0, Halted)
    decreases k
  {
    if k > 0 {
      var t' := WriteEntry(t, plan[0].region, Entry(plan[0].cfg, plan[0].addr));
      assert statuses[1..][k - 1] == statuses[k];
      CommitStopsAtFailure(t', plan[1..], statuses[1..], k - 1);
      assert plan[..k][1..] == plan[1..][..k - 1];
      assert statuses[..k][1..] == statuses[1..][..k - 1];
    }
  }

  /**
   * One stanza of a boot policy: prvPmpAccessConfig fills the descriptor
   * variable, metal_pmp_set_region commits it with the encoded address, and
   * the status is returned for the configASSERT that follows.
   */
  method Stanza(pmp: Pmp, config: ConfigHandle, region: nat, L: Lock, A: AddressMode,
                X: int, W: int, R: int, address: bv32, status: int) returns (rc: int)
    modifies pmp.entries, config
    ensures rc == status
    ensures config.Value() == Config(L, A, LowBit(X), LowBit(W), LowBit(R))
    ensures pmp.entries[..] == if status == 0 then WriteEntry(old(pmp.entries[..]), region, Entry(Config(L, A, LowBit(X), LowBit(W), LowBit(R)), address))
                               else old(pmp.entries[..])
  {
    config.AccessConfig(L, A, X, W, R);
    rc := pmp.SetRegion(region, config.Value(), address, status);
  }

  // ---------------------------------------------------------------------
  // pmp_initialization_M_mode_only
  // ---------------------------------------------------------------------

  const RamBase: bv32 := 0x8000_0000
  const RamSize: bv32 := 0x4000

  /** Entry 0: RAM, locked so that it binds M-mode too, NAPOT, read and write only. */
  const RamConfig := Config(Locked, Napot, false, true, true)

  function MModePlan(): seq<Request> {
    [Request(0, RamConfig, E.Napot(RamBase, RamSize))]
  }

  method InitializeMModeOnly(pmp: Pmp?, status: int) returns (outcome: Outcome)
    modifies if pmp != null then {pmp.entries} else {}
    ensures pmp == null ==> outcome == Halted
    ensures pmp != null ==> (pmp.entries[..], outcome) == Commit(Reset(old(pmp.entries[..])), MModePlan(), [status])
  {
    if pmp == null {
      return Halted;
    }
    pmp.Init();
    var address := E.Napot(0x8000_0000, 0x4000);
    var config := new ConfigHandle(OffConfig);
    var rc := Stanza(pmp, config, 0, Locked, Napot, 0, 1, 1, address, status);
    outcome := if rc == 0 then Completed else Halted;
  }

  /** Shape of a device table after the M-mode-only policy has completed. */
  predicate MModeTable(t: seq<Entry>) {
    |t| >= 1 && t[0] == Entry(RamConfig, 0x2000_07FF) &&
    forall j :: 1 <= j < |t| ==> t[j].cfg.mode == Off
  }

  /** From power-on, a completed M-mode-only policy leaves exactly that table. */
  lemma MModeTableCommitted(t0: seq<Entry>)
    requires PowerOnState(t0) && |t0| >= 1
    ensures Commit(Reset(t0), MModePlan(), [0]) == (Reset(t0)[0 := Entry(RamConfig, 0x2000_07FF)], Completed)
    ensures MModeTable(Commit(Reset(t0), MModePlan(), [0]).0)
  {
    E.RamEncoding();
    ResetFromPowerOn(t0);
  }

  /**
   * RAM can be read and written but never executed, in M-mode as in U-mode.
   */
  lemma RamNeverExecutable(t: seq<Entry>, p: Privilege, y: bv32)
    requires MModeTable(t)
    requires RamBase <= y && y - RamBase < RamSize
    ensures !Allowed(t, p, Execute, y)
    ensures Allowed(t, p, Read, y) && Allowed(t, p, Write, y)
  {
    E.NapotMatchesInside(RamBase, RamSize, y);
    E.RamEncoding();
    DecidedBy(t, 0, p, Execute, y);
    DecidedBy(t, 0, p, Read, y);
    DecidedBy(t, 0, p, Write, y);
  }

  /** Outside RAM the M-mode-only table does not restrict M-mode. */
  lemma MachineUnrestrictedOutsideRam(t: seq<Entry>, a: Access, y: bv32)
    requires MModeTable(t)
    requires !(RamBase <= y && y - RamBase < RamSize)
    ensures Allowed(t, Machine, a, y)
  {
    E.NapotMatchesOnlyInside(RamBase, RamSize, y);
    E.RamEncoding();
    Unmatched(t, Machine, a, y);
  }

  // ---------------------------------------------------------------------
  // pmp_initialization_U_mode_support
  // ---------------------------------------------------------------------

  /** The linker symbols the U-mode policy reads (their addresses). */
  datatype LinkSymbols = LinkSymbols(
    privilegedFunctionStart: bv32,
    commonFunctionStart: bv32,
    privilegedDataStart: bv32,
    commonDataEnd: bv32)

  const KernelCodeSize: bv32 := 0x8000
  const CommonCodeSize: bv32 := 0x1_0000
  const KernelDataSize: bv32 := 0x200

  /** Entries 0 and 2: unlocked NAPOT with no permissions, so only U-mode is fenced off. */
  const KernelConfig := Config(Unlocked, Napot, false, false, false)
  /** Entry 1: locked NAPOT, read and execute, the same for both modes. */
  const CommonCodeConfig := Config(Locked, Napot, true, false, true)
  /** Entry 3: locked TOR, read and write, the same for both modes. */
  const CommonDataConfig := Config(Locked, Tor, false, true, true)

  function UModePlan(s: LinkSymbols): seq<Request> {
    [Request(0, KernelConfig, E.Napot(s.privilegedFunctionStart, KernelCodeSize)),
     Request(1, CommonCodeConfig, E.Napot(s.commonFunctionStart, CommonCodeSize)),
     Request(2, KernelConfig, E.Napot(s.privilegedDataStart, KernelDataSize)),
     Request(3, CommonDataConfig, E.Tor(s.commonDataEnd))]
  }

  /** statuses[k] is the driver's status for the k-th metal_pmp_set_region call. */
  method InitializeUModeSupport(pmp: Pmp?, s: LinkSymbols, statuses: seq<int>) returns (outcome: Outcome)
    requires |statuses| == 4
    modifies if pmp != null then {pmp.entries} else {}
    ensures pmp == null ==> outcome == Halted
    ensures pmp != null ==> (pmp.entries[..], outcome) == Commit(Reset(old(pmp.entries[..])), UModePlan(s), statuses)
  {
    if pmp == null {
      return Halted;
    }
    pmp.Init();
    ghost var plan := UModePlan(s);
    ghost var goal := Commit(pmp.entries[..], plan, statuses);
    var config := new ConfigHandle(OffConfig);

    var address := E.Napot(s.privilegedFunctionStart, KernelCodeSize);
    var rc := Stanza(pmp, config, 0, Unlocked, Napot, 0, 0, 0, address, statuses[0]);
    if rc != 0 {
      return Halted;
    }
    assert goal == Commit(pmp.entries[..], plan[1..], statuses[1..]);

    address := E.Napot(s.commonFunctionStart, CommonCodeSize);
    ghost var t1 := pmp.entries[..];
    rc := Stanza(pmp, config, 1, Locked, Napot, 1, 0, 1, address, statuses[1]);
    if rc != 0 {
      assert Commit(t1, plan[1..], statuses[1..]) == (t1, Halted);
      return Halted;
    }
    assert goal == Commit(pmp.entries[..], plan[2..], statuses[2..]);

    address := E.Napot(s.privilegedDataStart, KernelDataSize);
    ghost var t2 := pmp.entries[..];
    rc := Stanza(pmp, config, 2, Unlocked, Napot, 0, 0, 0, address, statuses[2]);
    if rc != 0 {
      assert Commit(t2, plan[2..], statuses[2..]) == (t2, Halted);
      return Halted;
    }
    assert goal == Commit(pmp.entries[..], plan[3..], statuses[3..]);

    address := E.Tor(s.commonDataEnd);
    ghost var t3 := pmp.entries[..];
    rc := Stanza(pmp, config, 3, Locked, Tor, 0, 1, 1, address, statuses[3]);
    outcome := if rc == 0 then Completed else Halted;
    assert Commit(t3, plan[3..], statuses[3..]) == (pmp.entries[..], outcome);
  }

  /** Shape of a device table after the U-mode policy has completed. */
  predicate UModeTable(t: seq<Entry>, s: LinkSymbols) {
    |t| >= 4 &&
    t[0] == Entry(KernelConfig, E.Napot(s.privilegedFunctionStart, KernelCodeSize)) &&
    t[1] == Entry(CommonCodeConfig, E.Napot(s.commonFunctionStart, CommonCodeSize)) &&
    t[2] == Entry(KernelConfig, E.Napot(s.privilegedDataStart, KernelDataSize)) &&
    t[3] == Entry(CommonDataConfig, E.Tor(s.commonDataEnd)) &&
    forall j :: 4 <= j < |t| ==> t[j].cfg.mode == Off
  }

  /** From power-on, with every status zero, the U-mode policy completes and leaves that table. */
  lemma UModeTableCommitted(t0: seq<Entry>, s: LinkSymbols)
    requires PowerOnState(t0) && |t0| >= 4
    ensures Commit(Reset(t0), UModePlan(s), [0, 0, 0, 0]).1 == Completed
    ensures UModeTable(Commit(Reset(t0), UModePlan(s), [0, 0, 0, 0]).0, s)
  {
    ResetFromPowerOn(t0);
    var plan, st := UModePlan(s), [0, 0, 0, 0];
    var t1 := WriteEntry(Reset(t0), 0, Entry(plan[0].cfg, plan[0].addr));
    var t2 := WriteEntry(t1, 1, Entry(plan[1].cfg, plan[1].addr));
    var t3 := WriteEntry(t2, 2, Entry(plan[2].cfg, plan[2].addr));
    var t4 := WriteEntry(t3, 3, Entry(plan[3].cfg, plan[3].addr));
    assert Commit(t3, plan[3..], st[3..]) == (t4, Completed);
    assert Commit(t2, plan[2..], st[2..]) == (t4, Completed);
    assert Commit(t1, plan[1..], st[1..]) == (t4, Completed);
  }

  /** The byte y lies in the block of size bytes at base. */
  predicate InBlock(y: bv32, base: bv32, size: bv32) {
    base <= y && y - base < size
  }

  /** Link-time alignment of the three NAPOT blocks and of the end of common data. */
  predicate Aligned(s: LinkSymbols) {
    s.privilegedFunctionStart & (KernelCodeSize - 1) == 0 &&
    s.commonFunctionStart & (CommonCodeSize - 1) == 0 &&
    s.privilegedDataStart & (KernelDataSize - 1) == 0 &&
    s.commonDataEnd & 3 == 0
  }

  /** A NAPOT entry encoding an aligned block matches every byte of the block. */
  lemma NapotEntryInside(t: seq<Entry>, j: nat, base: bv32, size: bv32, y: bv32)
    requires j < |t| && t[j].cfg.mode == Napot && t[j].addr == E.Napot(base, size)
    requires E.IsPowerOfTwo(size) && size >= 8 && base & (size - 1) == 0
    requires InBlock(y, base, size)
    ensures Matches(t, j, y)
  {
    E.NapotMatchesInside(base, size, y);
  }

  /** ... and no byte outside it. */
  lemma NapotEntryOutside(t: seq<Entry>, j: nat, base: bv32, size: bv32, y: bv32)
    requires j < |t| && t[j].cfg.mode == Napot && t[j].addr == E.Napot(base, size)
    requires E.IsPowerOfTwo(size) && size >= 8 && base & (size - 1) == 0
    requires !InBlock(y, base, size)
    ensures !Matches(t, j, y)
  {
    E.NapotMatchesOnlyInside(base, size, y);
  }

  /** Kernel code: hidden from U-mode, fully accessible to M-mode (entry 0 is unlocked). */
  lemma KernelCodeHidden(t: seq<Entry>, s: LinkSymbols, a: Access, y: bv32)
    requires UModeTable(t, s) && Aligned(s)
    requires InBlock(y, s.privilegedFunctionStart, KernelCodeSize)
    ensures !Allowed(t, User, a, y) && Allowed(t, Machine, a, y)
  {
    NapotEntryInside(t, 0, s.privilegedFunctionStart, KernelCodeSize, y);
    DecidedBy(t, 0, User, a, y);
    DecidedBy(t, 0, Machine, a, y);
  }

  /** Common code: readable and executable, never writable, in both modes (entry 1 is locked). */
  lemma CommonCodeShared(t: seq<Entry>, s: LinkSymbols, p: Privilege, y: bv32)
    requires UModeTable(t, s) && Aligned(s)
    requires InBlock(y, s.commonFunctionStart, CommonCodeSize)
    requires !InBlock(y, s.privilegedFunctionStart, KernelCodeSize)
    ensures Allowed(t, p, Read, y) && Allowed(t, p, Execute, y) && !Allowed(t, p, Write, y)
  {
    NapotEntryOutside(t, 0, s.privilegedFunctionStart, KernelCodeSize, y);
    NapotEntryInside(t, 1, s.commonFunctionStart, CommonCodeSize, y);
    LockedBindsBoth(t, 1, Read, y);
    LockedBindsBoth(t, 1, Execute, y);
    LockedBindsBoth(t, 1, Write, y);
  }

  /** Kernel data: hidden from U-mode, fully accessible to M-mode (entry 2 is unlocked). */
  lemma KernelDataHidden(t: seq<Entry>, s: LinkSymbols, a: Access, y: bv32)
    requires UModeTable(t, s) && Aligned(s)
    requires InBlock(y, s.privilegedDataStart, KernelDataSize)
    requires !InBlock(y, s.privilegedFunctionStart, KernelCodeSize)
    requires !InBlock(y, s.commonFunctionStart, CommonCodeSize)
    ensures !Allowed(t, User, a, y) && Allowed(t, Machine, a, y)
  {
    NapotEntryOutside(t, 0, s.privilegedFunctionStart, KernelCodeSize, y);
    NapotEntryOutside(t, 1, s.commonFunctionStart, CommonCodeSize, y);
    NapotEntryInside(t, 2, s.privilegedDataStart, KernelDataSize, y);
    DecidedBy(t, 2, User, a, y);
    DecidedBy(t, 2, Machine, a, y);
  }

  /** A TOR entry encoding the word-aligned address top matches nothing at or above top. */
  lemma TorEntryAbove(t: seq<Entry>, j: nat, top: bv32, y: bv32)
    requires j < |t| && t[j].cfg.mode == Tor && t[j].addr == E.Tor(top)
    requires top & 3 == 0 && top <= y
    ensures !Matches(t, j, y)
  {
    E.TorTopExcluded(top, y);
  }

  /**
   * A TOR entry above a NAPOT entry for an aligned block: it matches from
   * the word at the middle of that block, less one word, up to top.
   */
  lemma TorEntryInside(t: seq<Entry>, j: nat, base: bv32, size: bv32, top: bv32, y: bv32)
    requires 0 < j < |t| && t[j].cfg.mode == Tor && t[j].addr == E.Tor(top)
    requires t[j - 1].addr == E.Napot(base, size)
    requires E.IsPowerOfTwo(size) && size >= 8 && base & (size - 1) == 0 && top & 3 == 0
    requires base <= y && y - base >= (size >> 1) - 4 && y < top
    ensures Matches(t, j, y)
  {
    E.TorAboveNapotMatches(base, size, top, y);
  }

  /** ... and nothing of the block below that word. */
  lemma TorEntryBelow(t: seq<Entry>, j: nat, base: bv32, size: bv32, top: bv32, y: bv32)
    requires 0 < j < |t| && t[j].cfg.mode == Tor && t[j].addr == E.Tor(top)
    requires t[j - 1].addr == E.Napot(base, size)
    requires E.IsPowerOfTwo(size) && size >= 8 && base & (size - 1) == 0
    requires base <= y && y - base < (size >> 1) - 4
    ensures !Matches(t, j, y)
  {
    E.NapotLowerBoundAbove(base, size, y);
  }

  /**
   * Entry 3's range starts at the raw register of entry 2, the NAPOT value
   * of the kernel data block, whose word is pds + 0xFC: the range covers
   * every byte from there up to, not including, _common_data_end.
   */
  lemma CommonDataEntryMatches(t: seq<Entry>, s: LinkSymbols, y: bv32)
    requires UModeTable(t, s) && Aligned(s)
    requires s.privilegedDataStart <= y && y - s.privilegedDataStart >= 0xFC
    requires y < s.commonDataEnd
    ensures Matches(t, 3, y)
  {
    TorEntryInside(t, 3, s.privilegedDataStart, KernelDataSize, s.commonDataEnd, y);
  }

  /** The first 0xFC bytes of kernel data lie below entry 3's range. */
  lemma CommonDataEntryMissesKernelDataHead(t: seq<Entry>, s: LinkSymbols, y: bv32)
    requires UModeTable(t, s) && Aligned(s)
    requires s.privilegedDataStart <= y && y - s.privilegedDataStart < 0xFC
    ensures !Matches(t, 3, y)
  {
    TorEntryBelow(t, 3, s.privilegedDataStart, KernelDataSize, s.commonDataEnd, y);
  }

  /** Past the kernel data block and below _common_data_end, entry 3 is the first match. */
  lemma CommonDataDecides(t: seq<Entry>, s: LinkSymbols, y: bv32)
    requires UModeTable(t, s) && Aligned(s)
    requires s.privilegedDataStart <= y && !InBlock(y, s.privilegedDataStart, KernelDataSize)
    requires y < s.commonDataEnd
    requires !InBlock(y, s.privilegedFunctionStart, KernelCodeSize)
    requires !InBlock(y, s.commonFunctionStart, CommonCodeSize)
    ensures Matches(t, 3, y) && forall j :: 0 <= j < 3 ==> !Matches(t, j, y)
  {
    NapotEntryOutside(t, 0, s.privilegedFunctionStart, KernelCodeSize, y);
    NapotEntryOutside(t, 1, s.commonFunctionStart, CommonCodeSize, y);
    NapotEntryOutside(t, 2, s.privilegedDataStart, KernelDataSize, y);
    CommonDataEntryMatches(t, s, y);
  }

  /**
   * .data and .bss, from the end of the kernel data block up to (not
   * including) _common_data_end: readable and writable, never executable,
   * in both modes (entry 3 is a locked TOR entry).
   */
  lemma CommonDataShared(t: seq<Entry>, s: LinkSymbols, p: Privilege, y: bv32)
    requires UModeTable(t, s) && Aligned(s)
    requires s.privilegedDataStart <= y && y - s.privilegedDataStart >= KernelDataSize
    requires y < s.commonDataEnd
    requires !InBlock(y, s.privilegedFunctionStart, KernelCodeSize)
    requires !InBlock(y, s.commonFunctionStart, CommonCodeSize)
    ensures Allowed(t, p, Read, y) && Allowed(t, p, Write, y) && !Allowed(t, p, Execute, y)
  {
    CommonDataDecides(t, s, y);
    LockedBindsBoth(t, 3, Read, y);
    LockedBindsBoth(t, 3, Write, y);
    LockedBindsBoth(t, 3, Execute, y);
  }

  /**
   * The upper half of the kernel data block is matched by the common data
   * entry as well, yet U-mode stays locked out there: entry 2 has the lower
   * number and decides.
   */
  lemma KernelDataShadowsCommonData(t: seq<Entry>, s: LinkSymbols, a: Access, y: bv32)
    requires UModeTable(t, s) && Aligned(s)
    requires InBlock(y, s.privilegedDataStart, KernelDataSize)
    requires y - s.privilegedDataStart >= 0xFC && y < s.commonDataEnd
    requires !InBlock(y, s.privilegedFunctionStart, KernelCodeSize)
    requires !InBlock(y, s.commonFunctionStart, CommonCodeSize)
    ensures Matches(t, 3, y) && Permits(t[3].cfg, Read)
    ensures !Allowed(t, User, a, y)
  {
    CommonDataEntryMatches(t, s, y);
    KernelDataHidden(t, s, a, y);
  }

  /**
   * .privilege_data takes 0x1a8 bytes of its 0x200-byte block.  When .data
   * follows it contiguously, the first byte of .data lies inside entry 2's
   * block: entry 3 matches it and grants reading, yet U-mode is denied,
   * because the lower-numbered entry 2 decides.
   */
  lemma ContiguousDataShadowed(t: seq<Entry>, s: LinkSymbols, a: Access)
    requires UModeTable(t, s) && Aligned(s)
    requires s.privilegedDataStart + 0x1A8 < s.commonDataEnd
    requires !InBlock(s.privilegedDataStart + 0x1A8, s.privilegedFunctionStart, KernelCodeSize)
    requires !InBlock(s.privilegedDataStart + 0x1A8, s.commonFunctionStart, CommonCodeSize)
    ensures Matches(t, 3, s.privilegedDataStart + 0x1A8) && Permits(t[3].cfg, Read)
    ensures !Allowed(t, User, a, s.privilegedDataStart + 0x1A8)
  {
    var y := s.privilegedDataStart + 0x1A8;
    assert InBlock(y, s.privilegedDataStart, KernelDataSize);
    KernelDataShadowsCommonData(t, s, a, y);
  }

  /**
   * The TOR range is half-open: _common_data_end itself, and every address
   * above it outside the NAPOT blocks, matches no entry, so U-mode is denied
   * there and M-mode is not restricted.
   */
  lemma CommonDataEndExcluded(t: seq<Entry>, s: LinkSymbols, a: Access, y: bv32)
    requires UModeTable(t, s) && Aligned(s)
    requires s.commonDataEnd <= y
    requires !InBlock(y, s.privilegedFunctionStart, KernelCodeSize)
    requires !InBlock(y, s.commonFunctionStart, CommonCodeSize)
    requires !InBlock(y, s.privilegedDataStart, KernelDataSize)
    ensures !Allowed(t, User, a, y) && Allowed(t, Machine, a, y)
  {
    NapotEntryOutside(t, 0, s.privilegedFunctionStart, KernelCodeSize, y);
    NapotEntryOutside(t, 1, s.commonFunctionStart, CommonCodeSize, y);
    NapotEntryOutside(t, 2, s.privilegedDataStart, KernelDataSize, y);
    TorEntryAbove(t, 3, s.commonDataEnd, y);
    Unmatched(t, User, a, y);
    Unmatched(t, Machine, a, y);
  }
}
