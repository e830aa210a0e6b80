// Table-driven CRC-32 of the HiFive1 demo: polynomial 0x04C11DB7, no
// reflection of input or output, caller-supplied initial value and no final
// XOR (the CRC-32/MPEG-2 parameter set when the initial value is 0xFFFFFFFF).
//
// The 256-entry lookup table is external to the C file, so the loop is proved
// against any 256-entry table.
module Crc32 {

  /** The table slot read for one byte: ((crc >> 24) ^ b) & 255. */
  function TableIndex(crc: bv32, b: bv8): (i: nat)
    ensures i < 256
  {
    (((crc >> 24) ^ (b as bv32)) & 255) as int
  }

  /** One iteration of the loop body, with the 32-bit truncation of the shift. */
  function Step(table: seq<bv32>, crc: bv32, b: bv8): bv32
    requires |table| == 256
  {
    (crc << 8) ^ table[TableIndex(crc, b)]
  }

  /** The CRC of `data` started from `init`: the loop body applied byte by byte, in order. */
  function Crc(table: seq<bv32>, data: seq<bv8>, init: bv32): bv32
    requires |table| == 256
    decreases |data|
  {
    if data == [] then init
    else Step(table, Crc(table, data[..|data| - 1], init), data[|data| - 1])
  }

  /** The first len bytes of a buffer of bufLength bytes are all inside it. */
  predicate ReadsWithin(bufLength: nat, len: bv32) {
    len as int <= bufLength
  }

  /**
   * xcrc32: `while (len--)` consumes exactly `len` bytes of `buf`, front to
   * back, through a moving pointer; the buffer and the table are only read.
   */
  method XCrc32(table: array<bv32>, buf: array<bv8>, len: bv32, init: bv32) returns (crc: bv32)
    requires table.Length == 256
    requires ReadsWithin(buf.Length, len)
    ensures crc == Crc(table[..], buf[..len as int], init)
    ensures len == 0 ==> crc == init
  {
    crc := init;
    var remaining: nat := len as int;
    var p := 0;
    ghost var t, n := table[..], len as int;
    while remaining != 0
      invariant p + remaining == n
      invariant crc == Crc(t, buf[..p], init)
    {
      remaining := remaining - 1;
      CrcAppend(t, buf[..p], buf[p], init);
      assert buf[..p] + [buf[p]] == buf[..p + 1];
      crc := Step(table[..], crc, buf[p]);
      p := p + 1;
    }
    assert buf[..p] == buf[..len as int];
  }

  lemma CrcAppend(table: seq<bv32>, data: seq<bv8>, b: bv8, init: bv32)
    requires |table| == 256
    ensures Crc(table, data + [b], init) == Step(table, Crc(table, data, init), b)
  {
    assert (data + [b])[..|data|] == data;
  }

  /**
   * Chaining across buffers: the CRC of a ++ b started from init equals the
   * CRC of b started from the CRC of a.
   */
  lemma {:induction false} CrcChaining(table: seq<bv32>, a: seq<bv8>, b: seq<bv8>, init: bv32)
    requires |table| == 256
    ensures Crc(table, a + b, init) == Crc(table, b, Crc(table, a, init))
    decreases |b|
  {
    if b == [] {
      assert a + b == a;
    } else {
      var front := b[..|b| - 1];
      CrcChaining(table, a, front, init);
      assert (a + b)[..|a + b| - 1] == a + front;
      assert (a + b)[|a + b| - 1] == b[|b| - 1];
    }
  }
}
