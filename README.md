# HiFive1 Rev B demo: PMP boot configuration, trap path and CRC-32

A Dafny model of three pieces of the FreeRTOS RISC-V demos for the SiFive
HiFive1 Rev B board.

- **PMP boot configuration** (`pmp_initialization.c`):
  - the two address encoders, NAPOT and TOR;
  - the descriptor builder `prvPmpAccessConfig`;
  - the two boot policies, "M-mode only" and "U-mode support".

  Each policy resets the PMP unit and commits its entries in index order. A nonzero driver status fails a `configASSERT`, and the policy stops there.
  The address-matching and access rules of section 3.6 of the RISC-V Privileged Architecture (version 20190608) give the committed tables a meaning. Under those rules the model proves the comments' claims about RAM, kernel code, .text and kernel data. It proves the .data/.bss claim for the bytes past the kernel-data block. It also shows two places where the comments are wrong: the TOR range is half-open, not `<=`, and .data laid out contiguously after kernel data starts out denied to U-mode (see Findings).
- **Trap path and hardware set-up** of the HiFive1 demo (`main.c`):
  - the load and store access-fault handlers and their registration;
  - `handle_trap`, `vAssertCalled` and `malloc`;
  - the inline address encoding;
  - the 64-bit cycle and instruction counters assembled from 32-bit halves.
- **Table-driven CRC-32** (`crc32.c`): `xcrc32`, a loop proved against a recursive specification of the CRC, with the chaining law its documentation promises.

All 32-bit quantities (`size_t`, `uint32_t` on RV32) are `bv32`, so wrap-around is the machine's. The 64-bit counters are `bv64`.

Files:

| file | module | contents |
|---|---|---|
| `pmp_encoding.dfy` | `PmpEncoding` | the NAPOT and TOR encoders and section 3.6 decoding of an address register |
| `pmp_device.dfy` | `PmpDevice` | the descriptor; the pmpcfg byte; `ConfigHandle` (a `struct metal_pmp_config`); the write rules; `Pmp` (the unit, an array of entries) |
| `pmp_match.dfy` | `PmpMatch` | section 3.6 matching and the access check over a table of entries |
| `pmp_policy.dfy` | `PmpPolicy` | the two boot policies and what their tables allow |
| `crc32.dfy` | `Crc32` | `xcrc32` |
| `hifive1.dfy` | `HiFive1` | handlers, fatal paths, inline encoding, counters, `prvSetupHardware` |

Points where the code does less, or something other, than a quick reading suggests:

- **NAPOT encoding of RAM.** The M-mode-only policy encodes the 0x4000-byte region at 0x80000000. The encoder clears bit `0x4000 >> 3`, which is bit 11, and sets bits 0..10, giving 0x200007FF. `PmpEncoding.RamEncoding` proves this value, and `PmpEncoding.NapotLayout` proves the general layout.
- **No checks on commits.** Neither policy checks the order of its commits or whether an entry is locked. The driver's status is a parameter of the model. A write that reaches the unit is applied under the hardware's rule in section 3.6.1: a locked entry ignores the write, and so does the address register below a locked TOR entry.
- **Reserved bits of pmpcfg.** Bits 6 and 5 of a pmpcfg byte are reserved, and `PmpDevice.ConfigByte` keeps both clear.
- **No trap dispatcher.** No code in these files sends a cause code to its registered handler. That routing lives in the Freedom Metal library. The model has the registrations, the handlers and `handle_trap`, but no dispatcher.

## Model

| member | source | states |
|---|---|---|
| PmpEncoding.Napot | FreeRTOS/Demo/RISC-V_RV32_SiFive_HiFive1-RevB_FreedomStudio_PMP/boot_config/pmp_initialization.c:123-140 | no validation: a size below 8 makes `size >> 3` zero, the subtraction wraps, and the result is all ones |
| PmpEncoding.Tor | FreeRTOS/Demo/RISC-V_RV32_SiFive_HiFive1-RevB_FreedomStudio_PMP/boot_config/pmp_initialization.c:144-151 | the register times 4 is base rounded down to a word; the top two bits are clear (base / 4) |
| PmpEncoding.NapotLayout | FreeRTOS/Demo/RISC-V_RV32_SiFive_HiFive1-RevB_FreedomStudio_PMP/boot_config/pmp_initialization.c:127-137 | for size 2^n, n ≥ 3: bits 0..n-4 set, bit n-3 clear, every higher bit equal to the same bit of base >> 2 |
| PmpEncoding.NapotCommentExamples | FreeRTOS/Demo/RISC-V_RV32_SiFive_HiFive1-RevB_FreedomStudio_PMP/boot_config/pmp_initialization.c:93-97 | the comment's examples: 8 bytes end in ...0, 16 in ...01, 32 in ...011, for every base |
| PmpEncoding.NapotMask | FreeRTOS/Demo/RISC-V_RV32_SiFive_HiFive1-RevB_FreedomStudio_PMP/boot_config/pmp_initialization.c:133-137 | the section 3.6 decoding mask of the result is the block size in words minus one |
| PmpEncoding.NapotRoundTrip | FreeRTOS/Demo/RISC-V_RV32_SiFive_HiFive1-RevB_FreedomStudio_PMP/boot_config/pmp_initialization.c:86-98 | round trip: for an aligned base and a power-of-two size ≥ 8, decoding gives back exactly base and size |
| PmpEncoding.NapotMatchesInside | FreeRTOS/Demo/RISC-V_RV32_SiFive_HiFive1-RevB_FreedomStudio_PMP/boot_config/pmp_initialization.c:123-140 | every byte of [base, base + size) matches the encoded entry |
| PmpEncoding.NapotMatchesOnlyInside | FreeRTOS/Demo/RISC-V_RV32_SiFive_HiFive1-RevB_FreedomStudio_PMP/boot_config/pmp_initialization.c:123-140 | no byte outside [base, base + size) matches it |
| PmpEncoding.NapotMatchesRange | FreeRTOS/Demo/RISC-V_RV32_SiFive_HiFive1-RevB_FreedomStudio_PMP/boot_config/pmp_initialization.c:86-98 | the encoded entry matches exactly the bytes of [base, base + size), both directions |
| PmpEncoding.NapotRoundsDown | FreeRTOS/Demo/RISC-V_RV32_SiFive_HiFive1-RevB_FreedomStudio_PMP/boot_config/pmp_initialization.c:131-137 | an unaligned base encodes like the base rounded down to the size, so the enclosing aligned block is chosen |
| PmpEncoding.TorMonotone | FreeRTOS/Demo/RISC-V_RV32_SiFive_HiFive1-RevB_FreedomStudio_PMP/boot_config/pmp_initialization.c:144-151 | the TOR encoding is monotone in the base |
| PmpEncoding.TorBelowTop | FreeRTOS/Demo/RISC-V_RV32_SiFive_HiFive1-RevB_FreedomStudio_PMP/boot_config/pmp_initialization.c:144-151 | for a word-aligned top, every address below top is below the encoded register |
| PmpEncoding.TorTopExcluded | FreeRTOS/Demo/RISC-V_RV32_SiFive_HiFive1-RevB_FreedomStudio_PMP/boot_config/pmp_initialization.c:144-151 | only addresses below top are below the encoded register |
| PmpEncoding.TorMatchesBelow | FreeRTOS/Demo/RISC-V_RV32_SiFive_HiFive1-RevB_FreedomStudio_PMP/boot_config/pmp_initialization.c:273-278 | a TOR entry for top matches y iff the lower register is at most y's word and y < top: half-open, not `<=` as the comment says |
| PmpEncoding.NapotAsLowerBound | FreeRTOS/Demo/RISC-V_RV32_SiFive_HiFive1-RevB_FreedomStudio_PMP/boot_config/pmp_initialization.c:266-277 | read as a TOR lower bound, a NAPOT register points at base + size/2 - 4, inside its own block |
| PmpEncoding.NapotLowerBoundFrom | FreeRTOS/Demo/RISC-V_RV32_SiFive_HiFive1-RevB_FreedomStudio_PMP/boot_config/pmp_initialization.c:266-277 | every byte from base + size/2 - 4 on is at or above that lower bound |
| PmpEncoding.NapotLowerBoundAbove | FreeRTOS/Demo/RISC-V_RV32_SiFive_HiFive1-RevB_FreedomStudio_PMP/boot_config/pmp_initialization.c:266-277 | no byte of the block below base + size/2 - 4 is at or above it |
| PmpEncoding.TorAboveNapotMatches | FreeRTOS/Demo/RISC-V_RV32_SiFive_HiFive1-RevB_FreedomStudio_PMP/boot_config/pmp_initialization.c:266-277 | a TOR entry above a NAPOT entry matches from base + size/2 - 4 up to its top |
| PmpEncoding.RamEncoding | FreeRTOS/Demo/RISC-V_RV32_SiFive_HiFive1-RevB_FreedomStudio_PMP/boot_config/pmp_initialization.c:194 | 0x80000000 with 0x4000 encodes as 0x200007FF, which decodes back to that base and size |
| PmpDevice.ModeOf | FreeRTOS/Demo/RISC-V_RV32_SiFive_HiFive1-RevB_FreedomStudio_PMP/boot_config/pmp_initialization.c:108 | decoding the A field inverts the encoding of the mode |
| PmpDevice.ConfigByte | FreeRTOS/Demo/RISC-V_RV32_SiFive_HiFive1-RevB_FreedomStudio_PMP/boot_config/pmp_initialization.c:106-112 | pmpcfg layout: L in bit 7, A in bits 4:3, X, W, R in bits 2, 1, 0; bits 6:5 clear |
| PmpDevice.ConfigByteRoundTrip | FreeRTOS/Demo/RISC-V_RV32_SiFive_HiFive1-RevB_FreedomStudio_PMP/boot_config/pmp_initialization.c:106-112 | decoding the byte of a descriptor gives the descriptor back |
| PmpDevice.ConfigByteCanonical | FreeRTOS/Demo/RISC-V_RV32_SiFive_HiFive1-RevB_FreedomStudio_PMP/boot_config/pmp_initialization.c:106-112 | every byte with bits 6:5 clear is the encoding of the descriptor it decodes to |
| PmpDevice.ConfigHandle.AccessConfig | FreeRTOS/Demo/RISC-V_RV32_SiFive_HiFive1-RevB_FreedomStudio_PMP/boot_config/pmp_initialization.c:156-173 | sets exactly L, A, X, W, R to its arguments and checks nothing; int X, W, R keep their low bit (one-bit fields) |
| PmpDevice.Written | FreeRTOS/Demo/RISC-V_RV32_SiFive_HiFive1-RevB_FreedomStudio_PMP/boot_config/pmp_initialization.c:196 | a locked entry ignores the write; an unlocked entry takes the new descriptor, and also the new address unless a locked TOR entry above holds that address |
| PmpDevice.WriteEntry | FreeRTOS/Demo/RISC-V_RV32_SiFive_HiFive1-RevB_FreedomStudio_PMP/boot_config/pmp_initialization.c:196 | writing entry j leaves the table's length and every other entry unchanged |
| PmpDevice.Reset | FreeRTOS/Demo/RISC-V_RV32_SiFive_HiFive1-RevB_FreedomStudio_PMP/boot_config/pmp_initialization.c:190 | metal_pmp_init keeps the number of entries, leaves every locked entry as it was, and turns every unlocked entry OFF with no permissions, at address 0 unless a locked TOR entry above holds the address |
| PmpDevice.LockedEntryKept | FreeRTOS/Demo/RISC-V_RV32_SiFive_HiFive1-RevB_FreedomStudio_PMP/boot_config/pmp_initialization.c:192-196 | a locked entry survives every write and every reset |
| PmpDevice.WriteTakesEffect | FreeRTOS/Demo/RISC-V_RV32_SiFive_HiFive1-RevB_FreedomStudio_PMP/boot_config/pmp_initialization.c:196 | a write to a writable entry stores exactly the requested entry |
| PmpDevice.ResetClearsUnlocked | FreeRTOS/Demo/RISC-V_RV32_SiFive_HiFive1-RevB_FreedomStudio/main.c:248-250 | after metal_pmp_init every unlocked entry is OFF with no permissions |
| PmpDevice.ResetFromPowerOn | FreeRTOS/Demo/RISC-V_RV32_SiFive_HiFive1-RevB_FreedomStudio/main.c:248-250 | whatever A, permissions and address each entry powers up with (only L is known to be clear), every entry becomes OFF at address 0, a known value |
| PmpDevice.ResetIdempotent | FreeRTOS/Demo/RISC-V_RV32_SiFive_HiFive1-RevB_FreedomStudio/main.c:248-250 | resetting twice is resetting once |
| PmpDevice.Pmp.Init | FreeRTOS/Demo/RISC-V_RV32_SiFive_HiFive1-RevB_FreedomStudio_PMP/boot_config/pmp_initialization.c:190 | the unit's entries become the reset of the old entries |
| PmpDevice.Pmp.SetRegion | FreeRTOS/Demo/RISC-V_RV32_SiFive_HiFive1-RevB_FreedomStudio_PMP/boot_config/pmp_initialization.c:196 | returns the driver's status; the entry is written, under the lock rule, exactly when the status is 0 |
| PmpMatch.FirstMatchFrom | FreeRTOS/Demo/RISC-V_RV32_SiFive_HiFive1-RevB_FreedomStudio_PMP/boot_config/pmp_initialization.c:273-276 | the result matches and no entry between `from` and it does; None only when no entry from `from` on matches |
| PmpMatch.FirstMatchIsLowest | FreeRTOS/Demo/RISC-V_RV32_SiFive_HiFive1-RevB_FreedomStudio_PMP/boot_config/pmp_initialization.c:273-276 | matching starts from the lowest-numbered entry: entry i decides iff it matches and no lower entry does |
| PmpMatch.DecidedBy | FreeRTOS/Demo/RISC-V_RV32_SiFive_HiFive1-RevB_FreedomStudio_PMP/boot_config/pmp_initialization.c:273-276 | the first matching entry decides: M-mode passes an unlocked entry, otherwise its R/W/X bits rule |
| PmpMatch.Unmatched | FreeRTOS/Demo/RISC-V_RV32_SiFive_HiFive1-RevB_FreedomStudio_PMP/boot_config/pmp_initialization.c:190-197 | an access no entry matches succeeds in M-mode and fails in U-mode |
| PmpMatch.LockedBindsBoth | FreeRTOS/Demo/RISC-V_RV32_SiFive_HiFive1-RevB_FreedomStudio_PMP/boot_config/pmp_initialization.c:192-193 | a locked deciding entry binds M-mode exactly as it binds U-mode |
| PmpMatch.UserNoMoreThanMachine | FreeRTOS/Demo/RISC-V_RV32_SiFive_HiFive1-RevB_FreedomStudio_PMP/boot_config/pmp_initialization.c:227-228 | for every table, whatever U-mode may do M-mode may do |
| PmpPolicy.Commit | FreeRTOS/Demo/RISC-V_RV32_SiFive_HiFive1-RevB_FreedomStudio_PMP/boot_config/pmp_initialization.c:218-219 | requests are issued in order; the policy halts iff some set_region status is nonzero, and the table keeps its length |
| PmpPolicy.CommitStopsAtFailure | FreeRTOS/Demo/RISC-V_RV32_SiFive_HiFive1-RevB_FreedomStudio_PMP/boot_config/pmp_initialization.c:218-219 | fail closed: at the first nonzero status the unit holds exactly the earlier writes and the policy halts |
| PmpPolicy.Stanza | FreeRTOS/Demo/RISC-V_RV32_SiFive_HiFive1-RevB_FreedomStudio_PMP/boot_config/pmp_initialization.c:194-197 | one descriptor fill plus set_region: the descriptor holds exactly the five arguments; returns the status and writes the entry iff it is 0 |
| PmpPolicy.InitializeMModeOnly | FreeRTOS/Demo/RISC-V_RV32_SiFive_HiFive1-RevB_FreedomStudio_PMP/boot_config/pmp_initialization.c:177-198 | a missing unit halts; otherwise reset, then entry 0 committed as the M-mode plan, halting on a nonzero status |
| PmpPolicy.MModeTableCommitted | FreeRTOS/Demo/RISC-V_RV32_SiFive_HiFive1-RevB_FreedomStudio_PMP/boot_config/pmp_initialization.c:192-197 | from power-on the policy completes with entry 0 = locked NAPOT R/W at 0x200007FF, the rest OFF |
| PmpPolicy.RamNeverExecutable | FreeRTOS/Demo/RISC-V_RV32_SiFive_HiFive1-RevB_FreedomStudio_PMP/boot_config/pmp_initialization.c:192-195 | RAM can be read and written but not executed, in M-mode as in U-mode |
| PmpPolicy.MachineUnrestrictedOutsideRam | FreeRTOS/Demo/RISC-V_RV32_SiFive_HiFive1-RevB_FreedomStudio_PMP/boot_config/pmp_initialization.c:192-195 | outside RAM the table does not restrict M-mode |
| PmpPolicy.InitializeUModeSupport | FreeRTOS/Demo/RISC-V_RV32_SiFive_HiFive1-RevB_FreedomStudio_PMP/boot_config/pmp_initialization.c:202-283 | a missing unit halts; otherwise reset, then entries 0, 1, 2, 3 committed in order as the U-mode plan, halting at the first nonzero status |
| PmpPolicy.UModeTableCommitted | FreeRTOS/Demo/RISC-V_RV32_SiFive_HiFive1-RevB_FreedomStudio_PMP/boot_config/pmp_initialization.c:227-281 | from power-on the four entries are exactly as the comments say, the rest OFF |
| PmpPolicy.NapotEntryInside | FreeRTOS/Demo/RISC-V_RV32_SiFive_HiFive1-RevB_FreedomStudio_PMP/boot_config/pmp_initialization.c:231-234 | a committed NAPOT entry matches every byte of its block |
| PmpPolicy.NapotEntryOutside | FreeRTOS/Demo/RISC-V_RV32_SiFive_HiFive1-RevB_FreedomStudio_PMP/boot_config/pmp_initialization.c:231-234 | and no byte outside it |
| PmpPolicy.KernelCodeHidden | FreeRTOS/Demo/RISC-V_RV32_SiFive_HiFive1-RevB_FreedomStudio_PMP/boot_config/pmp_initialization.c:227-234 | kernel functions: full access for M-mode, none for U-mode |
| PmpPolicy.CommonCodeShared | FreeRTOS/Demo/RISC-V_RV32_SiFive_HiFive1-RevB_FreedomStudio_PMP/boot_config/pmp_initialization.c:236-250 | .text: R/X only, for both M-mode and U-mode |
| PmpPolicy.KernelDataHidden | FreeRTOS/Demo/RISC-V_RV32_SiFive_HiFive1-RevB_FreedomStudio_PMP/boot_config/pmp_initialization.c:257-264 | kernel data: full access for M-mode, none for U-mode |
| PmpPolicy.TorEntryAbove | FreeRTOS/Demo/RISC-V_RV32_SiFive_HiFive1-RevB_FreedomStudio_PMP/boot_config/pmp_initialization.c:273-274 | a committed TOR entry matches nothing at or above its top |
| PmpPolicy.TorEntryInside | FreeRTOS/Demo/RISC-V_RV32_SiFive_HiFive1-RevB_FreedomStudio_PMP/boot_config/pmp_initialization.c:266-277 | a TOR entry whose lower register is a NAPOT value matches from the middle of that block up to its top |
| PmpPolicy.TorEntryBelow | FreeRTOS/Demo/RISC-V_RV32_SiFive_HiFive1-RevB_FreedomStudio_PMP/boot_config/pmp_initialization.c:266-277 | and nothing in the lower half of that block |
| PmpPolicy.CommonDataEntryMatches | FreeRTOS/Demo/RISC-V_RV32_SiFive_HiFive1-RevB_FreedomStudio_PMP/boot_config/pmp_initialization.c:266-277 | entry 3, bounded below by the raw pmpaddr[2], covers every byte from _privileged_data_start + 0xFC up to _common_data_end |
| PmpPolicy.CommonDataEntryMissesKernelDataHead | FreeRTOS/Demo/RISC-V_RV32_SiFive_HiFive1-RevB_FreedomStudio_PMP/boot_config/pmp_initialization.c:266-277 | the first 0xFC bytes of kernel data are below entry 3's range |
| PmpPolicy.CommonDataDecides | FreeRTOS/Demo/RISC-V_RV32_SiFive_HiFive1-RevB_FreedomStudio_PMP/boot_config/pmp_initialization.c:275-277 | for .data/.bss bytes past the kernel-data block and outside the code blocks, M/U-mode access falls to entry 3: it matches and no lower entry does |
| PmpPolicy.CommonDataShared | FreeRTOS/Demo/RISC-V_RV32_SiFive_HiFive1-RevB_FreedomStudio_PMP/boot_config/pmp_initialization.c:266-281 | .data and .bss: R/W only, for both M-mode and U-mode |
| PmpPolicy.KernelDataShadowsCommonData | FreeRTOS/Demo/RISC-V_RV32_SiFive_HiFive1-RevB_FreedomStudio_PMP/boot_config/pmp_initialization.c:273-276 | the upper part of kernel data also matches the R/W entry 3, yet U-mode is denied: entry 2 is lower and decides |
| PmpPolicy.ContiguousDataShadowed | FreeRTOS/Demo/RISC-V_RV32_SiFive_HiFive1-RevB_FreedomStudio_PMP/boot_config/pmp_initialization.c:257-277 | as written: with .data right after the 0x1a8 bytes of .privilege_data, the first byte of .data matches entry 3 (R/W), yet U-mode is denied there because entry 2 decides |
| PmpPolicy.CommonDataEndExcluded | FreeRTOS/Demo/RISC-V_RV32_SiFive_HiFive1-RevB_FreedomStudio_PMP/boot_config/pmp_initialization.c:273-274 | _common_data_end itself and above (outside the blocks) match nothing: U-mode denied, M-mode free; the range is half-open |
| Crc32.TableIndex | FreeRTOS/Demo/RISC-V_RV32_SiFive_HiFive1-RevB_FreedomStudio/crc32_demo/crc32.c:70 | the table index is always below 256 |
| Crc32.XCrc32 | FreeRTOS/Demo/RISC-V_RV32_SiFive_HiFive1-RevB_FreedomStudio/crc32_demo/crc32.c:65-74 | the result is the CRC of exactly buf[0..len-1], in order, from init; len 0 returns init; buffer and table are only read |
| Crc32.CrcAppend | FreeRTOS/Demo/RISC-V_RV32_SiFive_HiFive1-RevB_FreedomStudio/crc32_demo/crc32.c:68-72 | one more byte is one more loop step |
| Crc32.CrcChaining | FreeRTOS/Demo/RISC-V_RV32_SiFive_HiFive1-RevB_FreedomStudio/crc32_demo/crc32.c:39-42 | chaining: the CRC of a ++ b from init is the CRC of b from the CRC of a |
| HiFive1.Registered | FreeRTOS/Demo/RISC-V_RV32_SiFive_HiFive1-RevB_FreedomStudio/main.c:232-234 | registration adds codes 5 and 7 with the load and store handlers and keeps every other code |
| HiFive1.OnlyAccessFaultsHandled | FreeRTOS/Demo/RISC-V_RV32_SiFive_HiFive1-RevB_FreedomStudio/main.c:74-79 | only codes 5 and 7 are handled; the misaligned codes 4 and 6 are not |
| HiFive1.Cpu.AccessFaultHandler | FreeRTOS/Demo/RISC-V_RV32_SiFive_HiFive1-RevB_FreedomStudio/main.c:121-159 | exception PC := PC + length of the instruction at PC (32-bit add); nothing else changes |
| HiFive1.Cpu.ExceptionRegister | FreeRTOS/Demo/RISC-V_RV32_SiFive_HiFive1-RevB_FreedomStudio/main.c:233-234 | installs the handler for the code; nothing else changes |
| HiFive1.Cpu.AssertCalled | FreeRTOS/Demo/RISC-V_RV32_SiFive_HiFive1-RevB_FreedomStudio/main.c:351-376 | halts with interrupts disabled; after r rounds the red LED has toggled r times and r * 0x1FFFF delay iterations have run |
| HiFive1.HandleTrap | FreeRTOS/Demo/RISC-V_RV32_SiFive_HiFive1-RevB_FreedomStudio/main.c:379-397 | halts iff metal_cpu_get(0) is non-null, which set-up has asserted |
| HiFive1.Malloc | FreeRTOS/Demo/RISC-V_RV32_SiFive_HiFive1-RevB_FreedomStudio/main.c:406-416 | for every size: halts iff the CPU handle is non-null, and returns NULL otherwise |
| HiFive1.InlineEncoding | FreeRTOS/Demo/RISC-V_RV32_SiFive_HiFive1-RevB_FreedomStudio/main.c:208-215 | as written; when addr >> 5 is zero the subtraction wraps and the result is all ones |
| HiFive1.InlineProtectedAddress | FreeRTOS/Demo/RISC-V_RV32_SiFive_HiFive1-RevB_FreedomStudio/main.c:208-215 | the three step-by-step statements compute the inline encoding |
| HiFive1.InlineEncodingMissesTable | FreeRTOS/Demo/RISC-V_RV32_SiFive_HiFive1-RevB_FreedomStudio/main.c:208-215 | for a table at 0x20010100 the inline value selects 64 bytes at 0x24012100, which holds no byte of the table; the library encoder selects the table's first 256 bytes, including `crc32_table[5]` at 0x20010114 but not the last word |
| HiFive1.ProtectedAddressCoversTable | FreeRTOS/Demo/RISC-V_RV32_SiFive_HiFive1-RevB_FreedomStudio/main.c:87-88 | the corrected encoding matches exactly [tableAddr, tableAddr + 256): the first 256 bytes of the 1024-byte table, which include the word main.c:272 writes |
| HiFive1.AssembleCounter | FreeRTOS/Demo/RISC-V_RV32_SiFive_HiFive1-RevB_FreedomStudio/main.c:263-266 | the high word of the result is hi and the low word is lo |
| HiFive1.CounterValue | FreeRTOS/Demo/RISC-V_RV32_SiFive_HiFive1-RevB_FreedomStudio/main.c:263-266 | an assembled counter counts hi * 2^32 + lo |
| HiFive1.WordsDetermine | FreeRTOS/Demo/RISC-V_RV32_SiFive_HiFive1-RevB_FreedomStudio/main.c:286-289 | the two words determine the 64-bit counter |
| HiFive1.ZeroBufferCrc | FreeRTOS/Demo/RISC-V_RV32_SiFive_HiFive1-RevB_FreedomStudio/main.c:269 | corrected call: the CRC of the four zero bytes of the buffer from 0xFFFFFFFF |
| HiFive1.SetupCrcCallOverReads | FreeRTOS/Demo/RISC-V_RV32_SiFive_HiFive1-RevB_FreedomStudio/main.c:275 | as written, length 128 on a 4-byte buffer breaks xcrc32's readable-length requirement; length 4 meets it |
| HiFive1.Measure | FreeRTOS/Demo/RISC-V_RV32_SiFive_HiFive1-RevB_FreedomStudio/main.c:254-289 | the protected address as the inline encoding computes it, two equal CRCs of the zero buffer, four counters assembled from their halves |
| HiFive1.SetupHardware | FreeRTOS/Demo/RISC-V_RV32_SiFive_HiFive1-RevB_FreedomStudio/main.c:181-292 | each null look-up halts after the steps before it; on success: LED on-line and off, handlers 5 and 7 registered, PMP reset, measurements taken; the exception PC is never touched, and the LED is untouched when the CPU look-up fails |

## Left out

- The Freedom Metal driver is foreign code. Its look-ups are parameters, and `metal_cpu_get_instruction_length` is an oracle fixed with the hart. `metal_pmp_set_region`'s status is a parameter. The LED and registration calls are field updates. The interrupt controller is modelled only by whether its look-up succeeds (`controllerFound`); `metal_interrupt_init` is not modelled.
- Setting the PLIC enable and pending registers (main.c:236-242) is a memory-mapped I/O write with no effect on this model.
- The `csrr` reads (main.c:255-261, 278-284) supply the counter halves, which are parameters.
- HiFive1.Measure, HiFive1.SetupHardware: the store into `crc32_table` (main.c:271-272) is not modelled. The table is declared `const` (main.c:65), so C leaves the store undefined. On the board it faults only if the table is linked into non-writable memory. Nothing in the modelled PMP stops it: the `set_region` call at main.c:252 is commented out, and the address it would commit does not cover the table anyway (`HiFive1.InlineEncodingMissesTable`). The equal CRCs these two members promise follow from this omission, not from the program.
- `crc32_table`'s contents are extern. `xcrc32` is proved for any 256-entry table.
- Crc32.XCrc32: does not prove that a table generated from polynomial 0x04C11DB7 makes the result equal the bit-at-a-time CRC (MSB first, no reflection, no final XOR). The XOR linearity lemma that proof needs does not fit the verifier's resource bound.
- The trap routing that calls a registered handler or `handle_trap` is in the Freedom Metal library and is not part of this model.
- HiFive1.Cpu.AssertCalled: the endless `for (;;)` loop is observed for a caller-chosen number of rounds, and the result `Halted` stands for "never returns". Wherever another member returns `Halted` after a failed `configASSERT`, its ensures describe the state at entry to `vAssertCalled`. That routine then disables interrupts at once (main.c:357), as AssertCalled's own ensures state. The delay counter `ul` is an unbounded integer; its bound 0x1FFFF is far below 2^32.
- HiFive1.HandleTrap: does not model the reads of mepc, mcause and the PLIC pending registers. They go into locals that are never used.
- `vApplicationMallocFailedHook`, `vApplicationStackOverflowHook`, `vApplicationIdleHook`, `vApplicationTickHook`, `vToggleLED` and `main` fall outside the trap path.
- The NA4 mode is decoded by the matcher, but neither policy uses it.
- PmpPolicy.CommonDataShared: proved only for .data and .bss bytes outside the two code blocks and past the 0x200-byte kernel-data block. With the contiguous layout the comment at pmp_initialization.c:268-269 demands, .data begins inside that block, and there U-mode is denied (see Findings). The link addresses are parameters; the linker script is not part of this model.
- HiFive1.SetupHardware: each CRC is taken over the 4 bytes of its buffer. The length 128 as written reads past the buffer, which C leaves undefined (see Findings).
- HiFive1.Measure: takes both CRCs over the 4 bytes of the buffers, not 128 bytes as written, for the same reason.
- PmpMatch.Allowed: every access is a single byte. The section 3.6 rule that an access matching only some bytes of an entry fails is not modelled.

## Findings

| source | as written | input that shows it | evidently intended | confidence | as-written member | corrected member |
|---|---|---|---|---|---|---|
| FreeRTOS/Demo/RISC-V_RV32_SiFive_HiFive1-RevB_FreedomStudio/main.c:208-215 | `t = addr >> 2; t &= ~(t >> 3); t \|= (t >> 3) - 1`: the address itself stands in for the block size, and `mainPMP_NAPOT_SIZE` (256) goes unused | `&crc32_table` = 0x20010100 gives 0x09004847: a 64-byte block at 0x24012100, which does not contain the table | the NAPOT encoding of the table with size 256, 0x0800405F, covering exactly the first 256 bytes of the 1024-byte table, which include `crc32_table[5]` at 0x20010114, the word main.c:272 writes | not executed; the discrepancy is proved for this input | HiFive1.InlineEncodingMissesTable | HiFive1.ProtectedAddressCoversTable |
| FreeRTOS/Demo/RISC-V_RV32_SiFive_HiFive1-RevB_FreedomStudio/main.c:269 | `xcrc32(pcCrcBuffBefore, 128, 0xffffffff)` on a `uint8_t[4]` buffer (likewise line 275) | every call: bytes 4..127 past the buffer are read | length 4, the size of the buffer | not executed; the length and buffer size are constants | HiFive1.SetupCrcCallOverReads | HiFive1.ZeroBufferCrc |
| FreeRTOS/Demo/RISC-V_RV32_SiFive_HiFive1-RevB_FreedomStudio_PMP/boot_config/pmp_initialization.c:266-277 | the comment requires .privilege_data, .data and .bss to be contiguous and says M/U-mode access to .data and .bss falls to entry 3; but .privilege_data takes 0x1a8 bytes (line 259) of a 0x200-byte NAPOT block (line 261) that entry 2 denies to U-mode | a contiguous layout with .data at _privileged_data_start + 0x1a8: a U-mode read of that byte is denied | .data starting at the end of the 0x200-byte block (the section padded to its NAPOT size); from there on entry 3 gives R/W to both modes | not executed; plausible, depends on the linker layout | PmpPolicy.ContiguousDataShadowed | PmpPolicy.CommonDataShared |

`HiFive1.Measure` and `HiFive1.SetupHardware` compute the protected address as written, with `HiFive1.InlineProtectedAddress`. The value is never committed, because the `set_region` call at main.c:252 is commented out. `HiFive1.ProtectedAddress` is the corrected encoding. The CRC calls use the corrected length 4 (see "## Left out"). The as-written call is `HiFive1.SetupCrcCallOverReads`, and the requirement it breaks is `Crc32.ReadsWithin`.
