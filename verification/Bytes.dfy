/** Fixed-width integers and the big-endian byte helpers shared by the codecs. */
module Bytes {

  type u8 = x: int | 0 <= x < 0x100
  type u16 = x: int | 0 <= x < 0x1_0000
  type u32 = x: int | 0 <= x < 0x1_0000_0000

  function Wr16(v: u16): (b: seq<u8>)
    ensures |b| == 2 && Rd16(b) == v
  {
    [v / 0x100, v % 0x100]
  }

  function Rd16(p: seq<u8>): u16
    requires |p| >= 2
  {
    (p[0] as int) * 0x100 + p[1]
  }

  function Wr32(v: u32): (b: seq<u8>)
    ensures |b| == 4 && Rd32(b) == v
  {
    var hi, lo := v / 0x1_0000, v % 0x1_0000;
    [hi / 0x100, hi % 0x100, lo / 0x100, lo % 0x100]
  }

  function Rd32(p: seq<u8>): u32
    requires |p| >= 4
  {
    (p[0] as int) * 0x100_0000 + (p[1] as int) * 0x1_0000 + (p[2] as int) * 0x100 + p[3]
  }

  /** Chunks put together again. */
  function Flatten(chunks: seq<seq<u8>>): seq<u8> {
    if chunks == [] then [] else Flatten(chunks[..|chunks| - 1]) + chunks[|chunks| - 1]
  }
}
