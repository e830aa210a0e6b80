// Address encoders of the PMP boot configuration (prvFormatPmpAddrMatchNapot
// and prvFormatPmpAddrMatchTor) and the address-matching rules of section 3.6
// of the RISC-V Privileged Architecture (version 20190608) that give the
// encoded values their meaning.
//
// On RV32 a pmpaddr register holds bits 33:2 of a 34-bit physical address;
// this core issues 32-bit addresses, so an address y is compared through
// y >> 2.  All quantities are 32-bit (size_t and uint32_t on RV32), so the
// model uses bv32 and its wrap-around.
module PmpEncoding {

  predicate IsPowerOfTwo(x: bv32) {
    x != 0 && x & (x - 1) == 0
  }

  /** Bits 33:2 of a physical address: the form a pmpaddr register holds. */
  function WordAddress(y: bv32): bv32 {
    y >> 2
  }

  /**
   * prvFormatPmpAddrMatchNapot: drop the two low address bits, clear the bit
   * that marks the block size, set every bit below it.  Nothing is checked:
   * a size below 8 makes `size >> 3` zero and the subtraction wrap, which
   * gives the all-ones value (the whole address space).
   */
  function Napot(base: bv32, size: bv32): (r: bv32)
    ensures size >> 3 == 0 ==> r == 0xFFFF_FFFF
  {
    ((base >> 2) & !(size >> 3)) | ((size >> 3) - 1)
  }

  /** prvFormatPmpAddrMatchTor: the word address of base, rounded down to a word. */
  function Tor(base: bv32): (r: bv32)
    ensures r << 2 == base & !3
    ensures r & 0xC000_0000 == 0
  {
    base >> 2
  }

  // ---------------------------------------------------------------------
  // Section 3.6 decoding of an address register.
  // ---------------------------------------------------------------------

  /**
   * The word-address bits a NAPOT entry leaves free: with t trailing ones in
   * x, x ^ (x + 1) has exactly bits 0..t set, a block of 2^(t+1) words, that
   * is 2^(t+3) bytes.  An all-ones register gives an all-ones mask.
   */
  function RegionMask(x: bv32): bv32 {
    x ^ (x + 1)
  }

  /** A NAPOT entry with address register x matches the byte address y. */
  predicate NapotMatches(x: bv32, y: bv32) {
    WordAddress(y) & !RegionMask(x) == x & !RegionMask(x)
  }

  /** First byte of the block: clear the low t+1 bits, shift back by 2. */
  function DecodedBase(x: bv32): bv32 {
    (x & !RegionMask(x)) << 2
  }

  /** Size of the block in bytes, 2^(t+3); 64 bits wide so that 2^34 fits. */
  function DecodedSize(x: bv32): bv64 {
    ((RegionMask(x) as bv64) + 1) << 2
  }

  /**
   * A TOR entry with address register x matches y when the register of the
   * entry below it (0 for entry 0) is at most y's word address and x is
   * above it: the range is half-open at the top.
   */
  predicate TorMatches(lower: bv32, x: bv32, y: bv32) {
    lower <= WordAddress(y) && WordAddress(y) < x
  }

  /** An NA4 entry matches exactly the four bytes of one word. */
  predicate Na4Matches(x: bv32, y: bv32) {
    WordAddress(y) == x
  }

  // ---------------------------------------------------------------------
  // Properties of the encoders.
  // ---------------------------------------------------------------------

  /**
   * Layout of a NAPOT value for a size 2^n with n >= 3: the bits below
   * k = size >> 3 (bits 0..n-4) are set, bit k (bit n-3) is clear, and every
   * bit above is the same bit of base >> 2.
   */
  lemma NapotLayout(base: bv32, size: bv32)
    requires IsPowerOfTwo(size) && size >= 8
    ensures var r, k := Napot(base, size), size >> 3;
      r & (k - 1) == k - 1 && r & k == 0 && r & !(k | (k - 1)) == (base >> 2) & !(k | (k - 1))
  {
  }

  /** The comment's examples: 8 bytes end in ...0, 16 in ...01, 32 in ...011. */
  lemma NapotCommentExamples(base: bv32)
    ensures Napot(base, 8) & 1 == 0
    ensures Napot(base, 16) & 3 == 1
    ensures Napot(base, 32) & 7 == 3
  {
  }

  /** The decoding mask of a NAPOT value is the block size in words, minus one. */
  lemma NapotMask(base: bv32, size: bv32)
    requires IsPowerOfTwo(size) && size >= 8
    ensures RegionMask(Napot(base, size)) == (size >> 2) - 1
  {
  }

  /**
   * Round trip: for a power-of-two size of at least 8 bytes and a base
   * aligned to it, section 3.6 decoding gives back exactly base and size.
   */
  lemma NapotRoundTrip(base: bv32, size: bv32)
    requires IsPowerOfTwo(size) && size >= 8 && base & (size - 1) == 0
    ensures DecodedBase(Napot(base, size)) == base
    ensures DecodedSize(Napot(base, size)) == size as bv64
  {
  }

  /** Every byte of [base, base + size) is matched by the encoded entry. */
  lemma NapotMatchesInside(base: bv32, size: bv32, y: bv32)
    requires IsPowerOfTwo(size) && size >= 8 && base & (size - 1) == 0
    ensures base <= y && y - base < size ==> NapotMatches(Napot(base, size), y)
  {
  }

  /** No byte outside [base, base + size) is matched by the encoded entry. */
  lemma NapotMatchesOnlyInside(base: bv32, size: bv32, y: bv32)
    requires IsPowerOfTwo(size) && size >= 8 && base & (size - 1) == 0
    ensures NapotMatches(Napot(base, size), y) ==> base <= y && y - base < size
  {
  }

  /** The encoded entry matches exactly the bytes of [base, base + size). */
  lemma NapotMatchesRange(base: bv32, size: bv32, y: bv32)
    requires IsPowerOfTwo(size) && size >= 8 && base & (size - 1) == 0
    ensures NapotMatches(Napot(base, size), y) <==> base <= y && y - base < size
  {
    NapotMatchesInside(base, size, y);
    NapotMatchesOnlyInside(base, size, y);
  }

  /**
   * No alignment check: an unaligned base encodes the same value as the base
   * rounded down to a multiple of the size, so the enclosing aligned block
   * is selected.
   */
  lemma NapotRoundsDown(base: bv32, size: bv32)
    requires IsPowerOfTwo(size) && size >= 8
    ensures Napot(base, size) == Napot(base & !(size - 1), size)
  {
  }

  /** TOR encoding is monotone in the base address. */
  lemma TorMonotone(a: bv32, b: bv32)
    requires a <= b
    ensures Tor(a) <= Tor(b)
  {
  }

  /**
   * A TOR entry whose register encodes the word-aligned address top matches
   * exactly the addresses below top, from the lower register's word on.
   */
  lemma TorMatchesBelow(lower: bv32, top: bv32, y: bv32)
    requires top & 3 == 0
    ensures TorMatches(lower, Tor(top), y) <==> lower <= WordAddress(y) && y < top
  {
    TorBelowTop(top, y);
    TorTopExcluded(top, y);
  }

  lemma TorBelowTop(top: bv32, y: bv32)
    requires top & 3 == 0
    ensures y < top ==> WordAddress(y) < Tor(top)
  {
  }

  lemma TorTopExcluded(top: bv32, y: bv32)
    requires top & 3 == 0
    ensures WordAddress(y) < Tor(top) ==> y < top
  {
  }

  /**
   * Used as the lower bound of a TOR entry, a NAPOT register for an aligned
   * block denotes the word at the middle of the block, less one word.
   */
  lemma NapotAsLowerBound(base: bv32, size: bv32)
    requires IsPowerOfTwo(size) && size >= 8 && base & (size - 1) == 0
    ensures Napot(base, size) << 2 == base + (size >> 1) - 4
  {
  }

  /** So, as a TOR lower bound, it admits every byte from that word on ... */
  lemma NapotLowerBoundFrom(base: bv32, size: bv32, y: bv32)
    requires IsPowerOfTwo(size) && size >= 8 && base & (size - 1) == 0
    requires base <= y && y - base >= (size >> 1) - 4
    ensures Napot(base, size) <= WordAddress(y)
  {
  }

  /** ... and none of the block's bytes below it. */
  lemma NapotLowerBoundAbove(base: bv32, size: bv32, y: bv32)
    requires IsPowerOfTwo(size) && size >= 8 && base & (size - 1) == 0
    requires base <= y
    ensures Napot(base, size) <= WordAddress(y) ==> y - base >= (size >> 1) - 4
  {
  }

  /**
   * A TOR entry whose lower register is the NAPOT value of an aligned block
   * and whose own register encodes the word-aligned address top.
   */
  lemma TorAboveNapotMatches(base: bv32, size: bv32, top: bv32, y: bv32)
    requires IsPowerOfTwo(size) && size >= 8 && base & (size - 1) == 0 && top & 3 == 0
    requires base <= y && y - base >= (size >> 1) - 4 && y < top
    ensures TorMatches(Napot(base, size), Tor(top), y)
  {
    NapotLowerBoundFrom(base, size, y);
    TorBelowTop(top, y);
  }

  /** The RAM entry of the M-mode-only policy: 16 KiB at 0x80000000. */
  lemma RamEncoding()
    ensures Napot(0x8000_0000, 0x4000) == 0x2000_07FF
    ensures DecodedBase(0x2000_07FF) == 0x8000_0000 && DecodedSize(0x2000_07FF) == 0x4000
  {
  }
}
