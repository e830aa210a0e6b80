// The trap and fault path and the hardware set-up of the HiFive1 Rev B
// demo (main.c).  The Freedom Metal driver calls it makes -- CPU, LED,
// interrupt-controller and PMP look-ups, instruction-length decoding,
// handler registration -- are foreign code: a look-up is a parameter (a
// handle that may be null), the instruction length is an oracle fixed when
// the hart is created, and registration and the LED operations are field
// updates.  A failed configASSERT calls vAssertCalled, which never returns;
// the model reports that as the outcome Halted.
module HiFive1 {
  import E = PmpEncoding
  import opened PmpDevice
  import opened PmpPolicy
  import opened Crc32

  // mcause exception codes (section 3.1.16 of the RISC-V Privileged
  // Architecture, version 20190608).
  const LoadMisaligned: int := 4
  const LoadFault: int := 5
  const StoreMisaligned: int := 6
  const StoreFault: int := 7

  /** The two handlers the demo installs. */
  datatype Handler = LoadAccessFaultHandler | StoreAccessFaultHandler

  /** The handler table after the two registrations of prvSetupHardware. */
  function Registered(before: map<int, Handler>): (after: map<int, Handler>)
    ensures after.Keys == before.Keys + {LoadFault, StoreFault}
    ensures after[LoadFault] == LoadAccessFaultHandler && after[StoreFault] == StoreAccessFaultHandler
    ensures forall c :: c in before && c != LoadFault && c != StoreFault ==> after[c] == before[c]
  {
    before[LoadFault := LoadAccessFaultHandler][StoreFault := StoreAccessFaultHandler]
  }

  /** From an empty table only the two access faults are handled; the misaligned codes are not. */
  lemma OnlyAccessFaultsHandled()
    ensures Registered(map[]).Keys == {LoadFault, StoreFault}
    ensures LoadMisaligned !in Registered(map[]) && StoreMisaligned !in Registered(map[])
  {
  }

  /** An RGB LED channel, driven by the metal_led_* calls. */
  class Led {
    var enabled: bool
    var lit: bool

    constructor ()
      ensures !enabled && !lit
    {
      enabled, lit := false, false;
    }

    method Enable()
      modifies this`enabled
      ensures enabled
    {
      enabled := true;
    }

    method Off()
      modifies this`lit
      ensures !lit
    {
      lit := false;
    }

    method Toggle()
      modifies this`lit
      ensures lit == !old(lit)
    {
      lit := !lit;
    }
  }

  /** The delay loop bound of vAssertCalled (ulNullLoopDelay). */
  const NullLoopDelay: nat := 0x1FFFF

  /** The address after an instruction of the given length: a 32-bit add, wrapping. */
  function NextPc(pc: bv32, length: bv32): bv32 {
    pc + length
  }

  /** Hart 0: its saved exception PC, its handler table and its interrupt enable. */
  class Cpu {
    var exceptionPc: bv32
    var handlers: map<int, Handler>
    var interruptsEnabled: bool
    /** metal_cpu_get_instruction_length: the length of the instruction at a PC. */
    const instructionLength: bv32 -> bv32

    constructor (pc: bv32, length: bv32 -> bv32)
      ensures exceptionPc == pc && handlers == map[] && interruptsEnabled
      ensures instructionLength == length
    {
      exceptionPc, handlers, interruptsEnabled := pc, map[], true;
      instructionLength := length;
    }

    /**
     * prvLoadAcceseFaultHandler and prvStoreAcceseFaultHandler, which have
     * the same effect: the saved PC moves past the faulting instruction
     * (a 32-bit add), and the branch on the error code is empty either way,
     * so nothing else changes.
     */
    method AccessFaultHandler(errCode: int)
      modifies this`exceptionPc
      ensures exceptionPc == NextPc(old(exceptionPc), instructionLength(old(exceptionPc)))
    {
      var pc := exceptionPc;
      var length := instructionLength(pc);
      exceptionPc := NextPc(pc, length);
    }

    /** metal_cpu_exception_register: installs h for the exception code. */
    method ExceptionRegister(code: int, h: Handler)
      modifies this`handlers
      ensures handlers == old(handlers)[code := h]
    {
      handlers := handlers[code := h];
    }

    /**
     * vAssertCalled: interrupts off, the red LED (from metal_led_get_rgb) is
     * enabled and switched off, then `for (;;)` runs a 0x1FFFF-iteration nop
     * loop and toggles the LED.  The endless loop is observed for `rounds`
     * rounds; `nops` counts the delay iterations executed.  A missing LED
     * fails the nested configASSERT, which re-enters this function without
     * end.  It never returns.
     */
    method AssertCalled(redLed: Led?, rounds: nat) returns (outcome: Outcome, nops: nat)
      modifies this`interruptsEnabled, redLed
      ensures outcome == Halted && !interruptsEnabled
      ensures redLed == null ==> nops == 0
      ensures redLed != null ==> redLed.enabled && redLed.lit == (rounds % 2 == 1)
      ensures redLed != null ==> nops == rounds * NullLoopDelay
    {
      interruptsEnabled := false;
      if redLed == null {
        return Halted, 0;
      }
      redLed.Enable();
      redLed.Off();
      var round := 0;
      nops := 0;
      while round < rounds
        invariant round <= rounds && !interruptsEnabled
        invariant redLed.enabled && redLed.lit == (round % 2 == 1)
        invariant nops == round * NullLoopDelay
      {
        var ul := 0;
        while ul < NullLoopDelay
          invariant ul <= NullLoopDelay
          invariant nops == round * NullLoopDelay + ul
        {
          nops := nops + 1;
          ul := ul + 1;
        }
        redLed.Toggle();
        round := round + 1;
      }
      outcome := Halted;
    }
  }

  /**
   * handle_trap: reads mepc, mcause and the PLIC pending registers into
   * locals it never uses, then asserts that metal_cpu_get(0) is null.  The
   * handle was asserted non-null during set-up, so the assertion fails and
   * the call never returns.
   */
  method HandleTrap(hart0: Cpu?) returns (outcome: Outcome)
    ensures outcome == Halted <==> hart0 != null
  {
    if hart0 != null {
      return Halted;
    }
    return Completed;
  }

  /** malloc: no heap is linked in; it asserts as handle_trap does and returns NULL. */
  method Malloc(size: bv32, hart0: Cpu?) returns (outcome: Outcome, p: bv32)
    ensures outcome == Halted <==> hart0 != null
    ensures p == 0
  {
    outcome := if hart0 != null then Halted else Completed;
    p := 0;
  }

  // ---------------------------------------------------------------------
  // prvSetupHardware
  // ---------------------------------------------------------------------

  /** mainPMP_NAPOT_SIZE. */
  const NapotSize: bv32 := 256

  /**
   * The inline encoding of &crc32_table, as written: the shifted address
   * stands in for the block size, and the second mask is computed from the
   * already-masked value.  When addr >> 5 is zero the subtraction wraps and
   * every bit is set.
   */
  function InlineEncoding(addr: bv32): (x: bv32)
    ensures addr >> 5 == 0 ==> x == 0xFFFF_FFFF
  {
    var t := (addr >> 2) & !(addr >> 5);
    t | ((t >> 3) - 1)
  }

  /** The three statements of prvSetupHardware that build xProtectedAddress. */
  method InlineProtectedAddress(tableAddr: bv32) returns (x: bv32)
    ensures x == InlineEncoding(tableAddr)
  {
    x := tableAddr >> 2;
    x := x & !(x >> 3);
    x := x | ((x >> 3) - 1);
  }

  /**
   * For the 1024-byte table (256 uint32_t) at 0x20010100 the inline value
   * selects a 64-byte block at 0x24012100 that holds none of it.  The
   * library encoder with mainPMP_NAPOT_SIZE selects the table's first 256
   * bytes, which include crc32_table[5] at 0x20010114, the word the set-up
   * overwrites, but not the table's last word.
   */
  lemma InlineEncodingMissesTable()
    ensures InlineEncoding(0x2001_0100) == 0x0900_4847
    ensures E.DecodedBase(0x0900_4847) == 0x2401_2100 && E.DecodedSize(0x0900_4847) == 64
    ensures !E.NapotMatches(InlineEncoding(0x2001_0100), 0x2001_0100)
    ensures E.Napot(0x2001_0100, NapotSize) == 0x0800_405F
    ensures E.NapotMatches(E.Napot(0x2001_0100, NapotSize), 0x2001_0100)
    ensures E.NapotMatches(E.Napot(0x2001_0100, NapotSize), 0x2001_0114)
    ensures !E.NapotMatches(InlineEncoding(0x2001_0100), 0x2001_0114)
    ensures !E.NapotMatches(E.Napot(0x2001_0100, NapotSize), 0x2001_0100 + 0x3FC)
  {
  }

  /** The evidently intended address: the library NAPOT encoding of the table with mainPMP_NAPOT_SIZE. */
  function ProtectedAddress(tableAddr: bv32): bv32 {
    E.Napot(tableAddr, NapotSize)
  }

  /** For a 256-byte-aligned table it selects exactly [tableAddr, tableAddr + 256), the first 64 entries. */
  lemma ProtectedAddressCoversTable(tableAddr: bv32, y: bv32)
    requires tableAddr & (NapotSize - 1) == 0
    ensures E.NapotMatches(ProtectedAddress(tableAddr), y) <==> tableAddr <= y && y - tableAddr < NapotSize
  {
    E.NapotMatchesRange(tableAddr, NapotSize, y);
  }

  /** Bits 63:32 of a 64-bit counter. */
  function HighWord(c: bv64): bv32 {
    (c >> 32) as bv32
  }

  /** Bits 31:0 of a 64-bit counter. */
  function LowWord(c: bv64): bv32 {
    (c & 0xFFFF_FFFF) as bv32
  }

  /** c is the counter read as the halves hi (mcycleh, minstreth) and lo (mcycle, minstret). */
  predicate Assembled(c: bv64, hi: bv32, lo: bv32) {
    HighWord(c) == hi && LowWord(c) == lo
  }

  /** `ull = hi; ull = (ull << 32) | lo;` */
  method AssembleCounter(hi: bv32, lo: bv32) returns (c: bv64)
    ensures Assembled(c, hi, lo)
  {
    c := hi as bv64;
    c := (c << 32) | lo as bv64;
  }

  /** A counter assembled from hi and lo counts hi * 2^32 + lo. */
  lemma CounterValue(c: bv64, hi: bv32, lo: bv32)
    requires Assembled(c, hi, lo)
    ensures c as int == hi as int * 0x1_0000_0000 + lo as int
  {
    ShiftOrWords(hi, lo);
    WordsDetermine(c, (hi as bv64 << 32) | lo as bv64);
    ShiftOrValue(hi, lo);
  }

  /** The two words determine the counter. */
  lemma WordsDetermine(c: bv64, d: bv64)
    requires HighWord(c) == HighWord(d) && LowWord(c) == LowWord(d)
    ensures c == d
  {
  }

  lemma ShiftOrWords(hi: bv32, lo: bv32)
    ensures Assembled((hi as bv64 << 32) | lo as bv64, hi, lo)
  {
  }

  lemma ShiftOrValue(hi: bv32, lo: bv32)
    ensures ((hi as bv64 << 32) | lo as bv64) as int == hi as int * 0x1_0000_0000 + lo as int
  {
  }

  /** One read of mcycle, mcycleh, minstret and minstreth by the inline csrr block. */
  datatype CounterSample = CounterSample(mcycle: bv32, mcycleh: bv32, minstret: bv32, minstreth: bv32)

  /** The values prvSetupHardware computes into its locals. */
  datatype Measurements = Measurements(
    protectedAddress: bv32,
    mcycleBefore: bv64, minstretBefore: bv64,
    crcBefore: bv32, crcAfter: bv32,
    mcycleAfter: bv64, minstretAfter: bv64)

  /** `uint8_t buf[4] = { 0 };` followed by xcrc32(buf, 4, 0xffffffff). */
  method ZeroBufferCrc(table: array<bv32>) returns (crc: bv32)
    requires table.Length == 256
    ensures crc == Crc(table[..], [0, 0, 0, 0], 0xFFFF_FFFF)
  {
    var buf := new bv8[4](_ => 0);
    assert buf[..4] == [0, 0, 0, 0];
    crc := XCrc32(table, buf, 4, 0xFFFF_FFFF);
  }

  /**
   * The measurement part of prvSetupHardware.  The protected address is the
   * inline encoding as written (the value is never committed: the
   * set_region call is commented out).  Each CRC call reads the 4 bytes of
   * its zero-filled buffer, since the length 128 as written reads past the
   * buffer.  The write into the table between the calls is not modelled, so
   * both calls see the same table.
   */
  method Measure(table: array<bv32>, tableAddr: bv32, before: CounterSample, after: CounterSample)
    returns (m: Measurements)
    requires table.Length == 256
    ensures m.protectedAddress == InlineEncoding(tableAddr)
    ensures m.crcBefore == Crc(table[..], [0, 0, 0, 0], 0xFFFF_FFFF) && m.crcAfter == m.crcBefore
    ensures Assembled(m.mcycleBefore, before.mcycleh, before.mcycle)
    ensures Assembled(m.minstretBefore, before.minstreth, before.minstret)
    ensures Assembled(m.mcycleAfter, after.mcycleh, after.mcycle)
    ensures Assembled(m.minstretAfter, after.minstreth, after.minstret)
  {
    var protectedAddress := InlineProtectedAddress(tableAddr);
    var mcycleBefore := AssembleCounter(before.mcycleh, before.mcycle);
    var minstretBefore := AssembleCounter(before.minstreth, before.minstret);
    var crcBefore := ZeroBufferCrc(table);
    var crcAfter := ZeroBufferCrc(table);
    var mcycleAfter := AssembleCounter(after.mcycleh, after.mcycle);
    var minstretAfter := AssembleCounter(after.minstreth, after.minstret);
    m := Measurements(protectedAddress, mcycleBefore, minstretBefore, crcBefore, crcAfter, mcycleAfter, minstretAfter);
  }

  /**
   * prvSetupHardware: each look-up that comes back null halts at its
   * configASSERT, after the steps before it; otherwise the blue LED is
   * enabled and off, the two access-fault handlers are registered, the PMP
   * is reset by metal_pmp_init (the set_region call is commented out), and
   * the measurements are taken.
   */
  method SetupHardware(cpu: Cpu?, blueLed: Led?, controllerFound: bool, pmp: Pmp?,
                       table: array<bv32>, tableAddr: bv32, before: CounterSample, after: CounterSample)
    returns (outcome: Outcome, m: Measurements)
    requires table.Length == 256
    modifies cpu, blueLed, if pmp != null then {pmp.entries} else {}
    ensures outcome == Completed <==> cpu != null && blueLed != null && controllerFound && pmp != null
    ensures cpu != null ==> cpu.exceptionPc == old(cpu.exceptionPc) && cpu.interruptsEnabled == old(cpu.interruptsEnabled)
    ensures cpu != null ==> cpu.handlers == if blueLed != null && controllerFound then Registered(old(cpu.handlers)) else old(cpu.handlers)
    ensures cpu != null && blueLed != null ==> blueLed.enabled && !blueLed.lit
    ensures cpu == null && blueLed != null ==> blueLed.enabled == old(blueLed.enabled) && blueLed.lit == old(blueLed.lit)
    ensures pmp != null ==> pmp.entries[..] == if outcome == Completed then Reset(old(pmp.entries[..])) else old(pmp.entries[..])
    ensures outcome == Completed ==> m.protectedAddress == InlineEncoding(tableAddr)
    ensures outcome == Completed ==> m.crcBefore == Crc(table[..], [0, 0, 0, 0], 0xFFFF_FFFF) && m.crcAfter == m.crcBefore
    ensures outcome == Completed ==> Assembled(m.mcycleBefore, before.mcycleh, before.mcycle)
    ensures outcome == Completed ==> Assembled(m.minstretBefore, before.minstreth, before.minstret)
    ensures outcome == Completed ==> Assembled(m.mcycleAfter, after.mcycleh, after.mcycle)
    ensures outcome == Completed ==> Assembled(m.minstretAfter, after.minstreth, after.minstret)
  {
    m := Measurements(0, 0, 0, 0, 0, 0, 0);
    if cpu == null {
      return Halted, m;
    }
    if blueLed == null {
      return Halted, m;
    }
    blueLed.Enable();
    blueLed.Off();
    if !controllerFound {
      return Halted, m;
    }
    cpu.ExceptionRegister(LoadFault, LoadAccessFaultHandler);
    cpu.ExceptionRegister(StoreFault, StoreAccessFaultHandler);
    if pmp == null {
      return Halted, m;
    }
    pmp.Init();
    m := Measure(table, tableAddr, before, after);
    outcome := Completed;
  }

  /**
   * The call as written, xcrc32(buf, 128, ...) on a 4-byte buffer, breaks
   * xcrc32's requirement that len bytes be readable: it reads 124 bytes
   * past the buffer.
   */
  lemma SetupCrcCallOverReads()
    ensures !ReadsWithin(4, 128) && ReadsWithin(4, 4)
  {
  }
}
