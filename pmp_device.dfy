// The PMP region descriptor of the boot configuration (struct
// metal_pmp_config, filled in by prvPmpAccessConfig) and the PMP unit it is
// committed to.  The unit's driver is not part of this model: a write is
// modelled by the hardware rule of section 3.6.1 of the RISC-V Privileged
// Architecture (version 20190608) -- a locked entry ignores writes, and the
// address register below a locked TOR entry ignores writes -- and the
// driver's status code is a parameter.
module PmpDevice {

  /** enum metal_pmp_locked: METAL_PMP_UNLOCKED = 0, METAL_PMP_LOCKED = 1. */
  datatype Lock = Unlocked | Locked

  /** enum metal_pmp_address_mode: OFF = 0, TOR = 1, NA4 = 2, NAPOT = 3. */
  datatype AddressMode = Off | Tor | Na4 | Napot

  /** A region descriptor: the L, A, X, W and R fields of one pmpcfg byte. */
  datatype Config = Config(lock: Lock, mode: AddressMode, x: bool, w: bool, r: bool)

  /** One PMP entry: its configuration and its address register. */
  datatype Entry = Entry(cfg: Config, addr: bv32)

  /** The descriptor metal_pmp_init writes to every entry: unlocked, OFF, no access. */
  const OffConfig := Config(Unlocked, Off, false, false, false)

  // ---------------------------------------------------------------------
  // The pmpcfg byte: L bit 7, bits 6:5 zero, A bits 4:3, X bit 2, W bit 1,
  // R bit 0.
  // ---------------------------------------------------------------------

  function ModeBits(a: AddressMode): (b: bv8)
    ensures b <= 3
  {
    match a
    case Off => 0
    case Tor => 1
    case Na4 => 2
    case Napot => 3
  }

  function ModeOf(b: bv8): (a: AddressMode)
    requires b <= 3
    ensures ModeBits(a) == b
  {
    if b == 0 then Off else if b == 1 then Tor else if b == 2 then Na4 else Napot
  }

  function Bit(on: bool, mask: bv8): bv8 {
    if on then mask else 0
  }

  /** The byte the descriptor occupies in a pmpcfg register. */
  function ConfigByte(c: Config): (b: bv8)
    ensures b & 0x60 == 0
    ensures (b & 0x80 != 0) == (c.lock == Locked)
    ensures (b >> 3) & 3 == ModeBits(c.mode)
    ensures (b & 4 != 0) == c.x && (b & 2 != 0) == c.w && (b & 1 != 0) == c.r
  {
    Bit(c.lock == Locked, 0x80) | (ModeBits(c.mode) << 3) | Bit(c.x, 4) | Bit(c.w, 2) | Bit(c.r, 1)
  }

  /** Reading a pmpcfg byte back as a descriptor; bits 6:5 are ignored. */
  function DecodeConfig(b: bv8): Config {
    Config(if b & 0x80 != 0 then Locked else Unlocked, ModeOf((b >> 3) & 3),
           b & 4 != 0, b & 2 != 0, b & 1 != 0)
  }

  lemma ConfigByteRoundTrip(c: Config)
    ensures DecodeConfig(ConfigByte(c)) == c
  {
  }

  /** Every byte with the reserved bits clear is the encoding of exactly one descriptor. */
  lemma ConfigByteCanonical(b: bv8)
    requires b & 0x60 == 0
    ensures ConfigByte(DecodeConfig(b)) == b
  {
  }

  // ---------------------------------------------------------------------
  // prvPmpAccessConfig
  // ---------------------------------------------------------------------

  /**
   * What a one-bit unsigned bit-field keeps of an int assigned to it: the
   * low bit (Dafny's % is Euclidean, so this is also the low bit of a
   * negative value in two's complement).
   */
  predicate LowBit(v: int) {
    v % 2 == 1
  }

  /** A struct metal_pmp_config variable, written field by field. */
  class ConfigHandle {
    var lock: Lock
    var mode: AddressMode
    var x: bool
    var w: bool
    var r: bool

    constructor (c: Config)
      ensures Value() == c
    {
      lock, mode, x, w, r := c.lock, c.mode, c.x, c.w, c.r;
    }

    function Value(): Config
      reads this
    {
      Config(lock, mode, x, w, r)
    }

    /**
     * prvPmpAccessConfig: sets exactly the five fields to its arguments and
     * checks nothing; X, W and R are ints stored into one-bit fields.
     */
    method AccessConfig(L: Lock, A: AddressMode, X: int, W: int, R: int)
      modifies this
      ensures Value() == Config(L, A, LowBit(X), LowBit(W), LowBit(R))
    {
      lock := L;
      mode := A;
      x := LowBit(X);
      w := LowBit(W);
      r := LowBit(R);
    }
  }

  // ---------------------------------------------------------------------
  // The hardware write rule and the table operations.
  // ---------------------------------------------------------------------

  /** Section 3.6.1: the address register of entry j is locked by a locked TOR entry j + 1. */
  predicate AddrLockedByNext(t: seq<Entry>, j: nat) {
    j + 1 < |t| && t[j + 1].cfg.lock == Locked && t[j + 1].cfg.mode == Tor
  }

  /** Entry j after an attempt to write e into it. */
  function Written(t: seq<Entry>, j: nat, e: Entry): (n: Entry)
    requires j < |t|
    ensures t[j].cfg.lock == Locked ==> n == t[j]
    ensures t[j].cfg.lock == Unlocked && !AddrLockedByNext(t, j) ==> n == e
    ensures t[j].cfg.lock == Unlocked && AddrLockedByNext(t, j) ==> n == Entry(e.cfg, t[j].addr)
  {
    var locked := t[j].cfg.lock == Locked;
    Entry(if locked then t[j].cfg else e.cfg,
          if locked || AddrLockedByNext(t, j) then t[j].addr else e.addr)
  }

  /** The table after an attempt to write e into entry j; a missing entry ignores it. */
  function WriteEntry(t: seq<Entry>, j: nat, e: Entry): (u: seq<Entry>)
    ensures |u| == |t|
    ensures forall k :: 0 <= k < |t| && k != j ==> u[k] == t[k]
  {
    if j < |t| then t[j := Written(t, j, e)] else t
  }

  /** metal_pmp_init: every entry written with the OFF descriptor and address 0. */
  function Reset(t: seq<Entry>): (u: seq<Entry>)
    ensures |u| == |t|
    ensures forall j :: 0 <= j < |t| && t[j].cfg.lock == Locked ==> u[j] == t[j]
    ensures forall j :: 0 <= j < |t| && t[j].cfg.lock == Unlocked ==> u[j].cfg == OffConfig
    ensures forall j :: 0 <= j < |t| && t[j].cfg.lock == Unlocked && !AddrLockedByNext(t, j) ==> u[j].addr == 0
  {
    seq(|t|, j requires 0 <= j < |t| => Written(t, j, Entry(OffConfig, 0)))
  }

  /**
   * What is known of the entries after a hardware reset: L is cleared
   * (section 3.6.1: a lock holds until the hart is reset).  A, the
   * permissions and the address are undefined.
   */
  predicate PowerOnState(t: seq<Entry>) {
    forall j :: 0 <= j < |t| ==> t[j].cfg.lock == Unlocked
  }

  /** A locked entry is immutable: no write to any entry changes it. */
  lemma LockedEntryKept(t: seq<Entry>, j: nat, e: Entry, k: nat)
    requires k < |t| && t[k].cfg.lock == Locked
    ensures WriteEntry(t, j, e)[k] == t[k]
    ensures Reset(t)[k] == t[k]
  {
  }

  /** A write to an unlocked entry whose address is not held by the next entry takes effect. */
  lemma WriteTakesEffect(t: seq<Entry>, j: nat, e: Entry)
    requires j < |t| && t[j].cfg.lock == Unlocked && !AddrLockedByNext(t, j)
    ensures WriteEntry(t, j, e)[j] == e
  {
  }

  /** After metal_pmp_init every unlocked entry is OFF with no permissions. */
  lemma ResetClearsUnlocked(t: seq<Entry>, j: nat)
    requires j < |t| && t[j].cfg.lock == Unlocked
    ensures Reset(t)[j].cfg == OffConfig
  {
  }

  /** From the power-on state, metal_pmp_init leaves every entry OFF at address 0. */
  lemma ResetFromPowerOn(t: seq<Entry>)
    requires PowerOnState(t)
    ensures forall j :: 0 <= j < |t| ==> Reset(t)[j] == Entry(OffConfig, 0)
  {
  }

  /** Resetting twice is resetting once. */
  lemma ResetIdempotent(t: seq<Entry>)
    ensures Reset(Reset(t)) == Reset(t)
  {
    var u := Reset(t);
    assert forall j :: 0 <= j < |t| ==> u[j].cfg.lock == t[j].cfg.lock && u[j].cfg.mode == (if t[j].cfg.lock == Locked then t[j].cfg.mode else Off);
    assert forall j :: 0 <= j < |t| ==> AddrLockedByNext(u, j) == AddrLockedByNext(t, j);
  }

  /** The PMP unit: a fixed number of entries, updated in place. */
  class Pmp {
    var entries: array<Entry>

    constructor (initial: seq<Entry>)
      ensures fresh(entries) && entries[..] == initial
    {
      entries := new Entry[|initial|](j requires 0 <= j < |initial| => initial[j]);
    }

    /** metal_pmp_init: resets every entry that the hardware lets be written. */
    method Init()
      modifies entries
      ensures entries[..] == Reset(old(entries[..]))
    {
      var t := entries[..];
      forall j | 0 <= j < entries.Length {
        entries[j] := Written(t, j, Entry(OffConfig, 0));
      }
    }

    /**
     * metal_pmp_set_region: the driver's status is returned; only a zero
     * status means the write reached the hardware, which applies it under
     * the lock rules.
     */
    method SetRegion(region: nat, cfg: Config, addr: bv32, driverStatus: int) returns (status: int)
      modifies entries
      ensures status == driverStatus
      ensures entries[..] == if driverStatus == 0 then WriteEntry(old(entries[..]), region, Entry(cfg, addr))
                             else old(entries[..])
    {
      status := driverStatus;
      if driverStatus == 0 && region < entries.Length {
        entries[region] := Written(entries[..], region, Entry(cfg, addr));
      }
    }
  }
}
