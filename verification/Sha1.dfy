/** SHA-1 as RFC 3174 defines it: section 4 (padding), section 5 (functions and constants)
    and section 6.1 (the compression of one block). */
module Sha1Spec {
  import opened Bytes

  datatype State = State(a: bv32, b: bv32, c: bv32, d: bv32, e: bv32)

  const INITIAL := State(0x67452301, 0xefcdab89, 0x98badcfe, 0x10325476, 0xc3d2e1f0)

  function Rol1(v: bv32): bv32 { (v << 1) | (v >> 31) }
  function Rol5(v: bv32): bv32 { (v << 5) | (v >> 27) }
  function Rol30(v: bv32): bv32 { (v << 30) | (v >> 2) }

  function Select(b: bv32, c: bv32, d: bv32): bv32 { (b & c) | (!b & d) }
  function Parity(b: bv32, c: bv32, d: bv32): bv32 { b ^ c ^ d }
  function Majority(b: bv32, c: bv32, d: bv32): bv32 { (b & c) | (b & d) | (c & d) }

  function Choose(t: nat, b: bv32, c: bv32, d: bv32): bv32 {
    if t < 20 then Select(b, c, d)
    else if t < 40 then Parity(b, c, d)
    else if t < 60 then Majority(b, c, d)
    else Parity(b, c, d)
  }

  function Constant(t: nat): bv32 {
    if t < 20 then 0x5a827999 else if t < 40 then 0x6ed9eba1 else if t < 60 then 0x8f1bbcdc else 0xca62c1d6
  }

  /** Four bytes, most significant first. */
  function Word(b0: u8, b1: u8, b2: u8, b3: u8): bv32 { Join(Wide(b0), Wide(b1), Wide(b2), Wide(b3)) }

  /** A byte as a 32-bit word. */
  function Wide(b: u8): bv32 { (b as bv8) as bv32 }

  function Join(b0: bv32, b1: bv32, b2: bv32, b3: bv32): bv32 { (b0 << 24) | (b1 << 16) | (b2 << 8) | b3 }

  function Mixed(x: bv32, y: bv32, z: bv32, u: bv32): bv32 { Rol1(x ^ y ^ z ^ u) }

  function Mix(w: seq<bv32>, t: nat): bv32
    requires 16 <= t <= |w|
  {
    Mixed(w[t - 3], w[t - 8], w[t - 14], w[t - 16])
  }

  /** The first `n` words of the message schedule. */
  function Schedule(block: seq<u8>, n: nat): (w: seq<bv32>)
    requires |block| == 64
    ensures |w| == n
  {
    if n == 0 then []
    else
      var w := Schedule(block, n - 1);
      var t := n - 1;
      w + [if t < 16 then Word(block[4 * t], block[4 * t + 1], block[4 * t + 2], block[4 * t + 3]) else Mix(w, t)]
  }

  function Sum(a: bv32, f: bv32, e: bv32, k: bv32, w: bv32): bv32 { a + f + e + k + w }

  /** The new first word of a round. */
  function Temp(t: nat, a: bv32, b: bv32, c: bv32, d: bv32, e: bv32, w: bv32): bv32 {
    Sum(Rol5(a), Choose(t, b, c, d), e, Constant(t), w)
  }

  function Round(s: State, t: nat, w: bv32): State {
    State(Temp(t, s.a, s.b, s.c, s.d, s.e, w), s.a, Rol30(s.b), s.c, s.d)
  }

  function Rounds(s: State, w: seq<bv32>, t: nat): State
    requires t <= |w|
  {
    if t == 0 then s else Round(Rounds(s, w, t - 1), t - 1, w[t - 1])
  }

  function Add(x: bv32, y: bv32): bv32 { x + y }

  function Plus(s: State, r: State): State {
    State(Add(s.a, r.a), Add(s.b, r.b), Add(s.c, r.c), Add(s.d, r.d), Add(s.e, r.e))
  }

  function Compress(s: State, block: seq<u8>): State
    requires |block| == 64
  {
    Plus(s, Rounds(s, Schedule(block, 80), 80))
  }

  /** Every whole block of `m` in turn. */
  function Digested(m: seq<u8>): State
    decreases |m|
  {
    if |m| < 64 then INITIAL
    else
      var n := (|m| - 64) / 64 * 64;
      Compress(Digested(m[..n]), m[n..n + 64])
  }

  // ----- padding -----

  /** Byte `k` of a 64-bit length, most significant first. */
  function LengthByte(bits: nat, k: nat): u8
    requires k < 8
  {
    Low(Shr(bits, 56 - 8 * k))
  }

  /** x >> n. */
  function Shr(x: nat, n: nat): nat
    decreases n
  {
    if n == 0 then x else Shr(x / 2, n - 1)
  }

  function Low(x: nat): u8 { x % 0x100 }

  function LengthField(bits: nat): (f: seq<u8>)
    ensures |f| == 8
  {
    seq(8, k requires 0 <= k < 8 => LengthByte(bits, k))
  }

  /** How many zero bytes bring the length to 56 modulo 64 after the 0x80. */
  function ZeroCount(n: nat): (k: nat)
    ensures k < 64 && (n + 1 + k) % 64 == 56
  {
    (119 - n % 64) % 64
  }

  function Zeros(k: nat): (z: seq<u8>)
    ensures |z| == k && forall i :: 0 <= i < k ==> z[i] == 0
  {
    seq(k, i => 0)
  }

  function Wrap64(n: nat): nat { n % 0x1_0000_0000_0000_0000 }

  /** The length in bits, as a 64-bit counter has it. */
  function BitLength(n: nat): nat { Wrap64(8 * n) }

  lemma WrapAdds(a: nat, b: nat)
    ensures Wrap64(Wrap64(a) + b) == Wrap64(a + b)
  {
    var k := a / 0x1_0000_0000_0000_0000;
    assert a == 0x1_0000_0000_0000_0000 * k + Wrap64(a);
    WrapShift(Wrap64(a) + b, k);
    hide Wrap64;
  }

  lemma NothingDigested()
    ensures Digested([]) == INITIAL
  {}

  lemma WrapZero()
    ensures Wrap64(0) == 0
  {}

  lemma WrapBits(n: nat)
    ensures Wrap64(8 * Wrap64(n)) == BitLength(n)
  {
    var q := 0x1_0000_0000_0000_0000;
    var k := n / q;
    assert n == q * k + Wrap64(n);
    assert 8 * n == q * (8 * k) + 8 * Wrap64(n);
    WrapShift(8 * Wrap64(n), 8 * k);
  }

  lemma {:induction false} WrapShift(a: nat, k: nat)
    ensures Wrap64(0x1_0000_0000_0000_0000 * k + a) == Wrap64(a)
  {
    if k > 0 {
      WrapShift(a, k - 1);
      assert 0x1_0000_0000_0000_0000 * k + a == 0x1_0000_0000_0000_0000 * (k - 1) + a + 0x1_0000_0000_0000_0000;
    }
  }

  function Pad(m: seq<u8>): seq<u8> {
    m + [0x80] + Zeros(ZeroCount(|m|)) + LengthField(BitLength(|m|))
  }

  lemma PadFits(m: seq<u8>)
    ensures |Pad(m)| == |m| + 1 + ZeroCount(|m|) + 8
    ensures |Pad(m)| % 64 == 0 && |m| + 9 <= |Pad(m)| < |m| + 73
  {
    hide LengthField, Zeros, ZeroCount, BitLength;
    assert |Pad(m)| == |m| + 1 + ZeroCount(|m|) + 8;
  }

  // ----- the digest -----

  function OutByte(h: bv32, k: nat): u8
    requires k < 4
  {
    if k == 0 then ((h >> 24) as bv8) as u8
    else if k == 1 then (((h >> 16) & 0xff) as bv8) as u8
    else if k == 2 then (((h >> 8) & 0xff) as bv8) as u8
    else ((h & 0xff) as bv8) as u8
  }

  function OutWord(h: bv32): seq<u8> { [OutByte(h, 0), OutByte(h, 1), OutByte(h, 2), OutByte(h, 3)] }

  function OutFirst(s: State, n: nat): seq<u8>
    requires n <= 5
  {
    if n == 0 then []
    else OutFirst(s, n - 1) + OutWord(if n == 1 then s.a else if n == 2 then s.b else if n == 3 then s.c
        else if n == 4 then s.d else s.e)
  }

  /** The five words, most significant byte first. */
  function Out(s: State): seq<u8> { OutFirst(s, 5) }

  function Digest(m: seq<u8>): seq<u8> { Out(Digested(Pad(m))) }
}

/** The streaming SHA-1 of nc_ws. */
module Sha1Stream {
  import opened Bytes
  import opened Sha1Spec

  /** What a whole number of blocks contributes does not depend on the bytes after them. */
  lemma {:induction false} DigestedWhole(m: seq<u8>, rest: seq<u8>)
    requires |m| % 64 == 0 && |rest| < 64
    ensures Digested(m + rest) == Digested(m)
  {
    if |m| >= 64 {
      var n := |m| - 64;
      assert (|m| - 64) / 64 * 64 == n && (|m + rest| - 64) / 64 * 64 == n;
      assert (m + rest)[..n] == m[..n] && (m + rest)[n..n + 64] == m[n..n + 64];
    }
  }

  lemma DigestedBlock(m: seq<u8>, block: seq<u8>)
    requires |m| % 64 == 0 && |block| == 64
    ensures Digested(m + block) == Compress(Digested(m), block)
  {
    var all := m + block;
    assert (|all| - 64) / 64 * 64 == |m|;
    assert all[..|m|] == m && all[|m|..|m| + 64] == block;
  }

  /** The message after the first `p` bytes of `data`. */
  function Fed(m: seq<u8>, data: seq<u8>, p: nat): seq<u8>
    requires p <= |data|
  {
    m + data[..p]
  }

  lemma FedEnds(m: seq<u8>, data: seq<u8>)
    ensures Fed(m, data, 0) == m && Fed(m, data, |data|) == m + data
  {
    assert data[..|data|] == data;
  }

  lemma FedSteps(m: seq<u8>, data: seq<u8>, p: nat, take: nat)
    requires p + take <= |data|
    ensures Fed(m, data, p) + data[p..p + take] == Fed(m, data, p + take)
  {
    assert data[..p] + data[p..p + take] == data[..p + take];
  }

  // ----- the expressions of sha1_block -----

  method NextWord(x: bv32, y: bv32, z: bv32, u: bv32) returns (w: bv32)
    ensures w == Mixed(x, y, z, u)
  {
    var v := x ^ y ^ z ^ u;
    w := (v << 1) | (v >> 31);
  }

  method Selected(b: bv32, c: bv32, d: bv32) returns (f: bv32)
    ensures f == Select(b, c, d)
  {
    f := (b & c) | (!b & d);
  }

  method Odd(b: bv32, c: bv32, d: bv32) returns (f: bv32)
    ensures f == Parity(b, c, d)
  {
    f := b ^ c ^ d;
  }

  method Shared(b: bv32, c: bv32, d: bv32) returns (f: bv32)
    ensures f == Majority(b, c, d)
  {
    f := (b & c) | (b & d) | (c & d);
  }

  method ByFive(a: bv32) returns (r: bv32)
    ensures r == Rol5(a)
  {
    r := (a << 5) | (a >> 27);
  }

  method ByThirty(b: bv32) returns (r: bv32)
    ensures r == Rol30(b)
  {
    r := (b << 30) | (b >> 2);
  }

  method Added(a: bv32, f: bv32, e: bv32, k: bv32, w: bv32) returns (t: bv32)
    ensures t == Sum(a, f, e, k, w)
  {
    t := a + f + e + k + w;
  }

  /** The new first word of round `i`. */
  method NewFirst(i: nat, a: bv32, b: bv32, c: bv32, d: bv32, e: bv32, w: bv32) returns (t: bv32)
    ensures t == Temp(i, a, b, c, d, e, w)
  {
    hide Select, Parity, Majority, Sum, Rol5;
    var f: bv32, k: bv32;
    if i < 20 {
      f := Selected(b, c, d);
      k := 0x5a827999;
    } else if i < 40 {
      f := Odd(b, c, d);
      k := 0x6ed9eba1;
    } else if i < 60 {
      f := Shared(b, c, d);
      k := 0x8f1bbcdc;
    } else {
      f := Odd(b, c, d);
      k := 0xca62c1d6;
    }
    var r := ByFive(a);
    t := Added(r, f, e, k, w);
  }

  /** struct sha1; `msg` is everything fed so far. */
  class Hasher {
    const h: array<bv32>
    const buf: array<u8>
    var n: nat
    var len: nat
    ghost var msg: seq<u8>

    ghost predicate Valid()
      reads this, h, buf
    {
      Buffered() && len == Wrap64(|msg|)
    }

    ghost function Words(): State
      reads h
      requires h.Length == 5
    {
      State(h[0], h[1], h[2], h[3], h[4])
    }

    /** sha1_init. */
    constructor ()
      ensures Valid() && msg == [] && fresh(h) && fresh(buf)
    {
      h := new bv32[5];
      buf := new u8[64];
      n, len, msg := 0, 0, [];
      new;
      hide Wrap64, Digested;
      WrapZero();
      NothingDigested();
      h[0], h[1], h[2], h[3], h[4] := 0x67452301, 0xefcdab89, 0x98badcfe, 0x10325476, 0xc3d2e1f0;
    }

    /** The schedule of sha1_block. */
    method Expand() returns (w: array<bv32>)
      requires buf.Length == 64
      ensures w.Length == 80 && fresh(w) && w[..] == Schedule(buf[..], 80)
    {
      hide Word, Mixed;
      w := new bv32[80];
      ghost var block := buf[..];
      for i := 0 to 16
        invariant w[..i] == Schedule(block, i) && buf[..] == block
      {
        w[i] := Word(buf[4 * i], buf[4 * i + 1], buf[4 * i + 2], buf[4 * i + 3]);
        assert w[..i + 1] == w[..i] + [w[i]];
      }
      for i := 16 to 80
        invariant w[..i] == Schedule(block, i) && buf[..] == block
      {
        w[i] := NextWord(w[i - 3], w[i - 8], w[i - 14], w[i - 16]);
        assert w[i] == Mix(w[..i], i);
        assert w[..i + 1] == w[..i] + [w[i]];
      }
      assert w[..] == w[..80];
    }

    /** sha1_block. */
    method Block()
      requires h.Length == 5 && buf.Length == 64
      modifies h
      ensures Words() == Compress(old(Words()), buf[..])
    {
      hide Schedule, Rol30, Temp, Add;
      var w := Expand();
      ghost var ws := w[..];
      ghost var s0 := Words();
      var a, b, c, d, e := h[0], h[1], h[2], h[3], h[4];
      for i := 0 to 80
        invariant State(a, b, c, d, e) == Rounds(s0, ws, i) && w[..] == ws && Words() == s0
      {
        var t := NewFirst(i, a, b, c, d, e, w[i]);
        var third := ByThirty(b);
        e, d, c, b, a := d, c, third, a, t;
      }
      h[0], h[1], h[2], h[3], h[4] := Add(h[0], a), Add(h[1], b), Add(h[2], c), Add(h[3], d), Add(h[4], e);
    }

    /** sha1_update. */
    method Update(data: seq<u8>)
      requires Valid()
      modifies this, h, buf
      ensures Valid() && n < 64 && msg == old(msg) + data
    {
      hide Wrap64, Fed, Words, Digested;
      WrapAdds(|msg|, |data|);
      BufferedIs();
      FedEnds(msg, data);
      hide Buffered;
      len := Wrap64(len + |data|);
      ghost var m := msg;
      var p := 0;
      while p < |data|
        invariant p <= |data| && n < 64 && Buffered() && msg == Fed(m, data, p)
        invariant len == Wrap64(|m| + |data|)
      {
        var take := 64 - n;
        if take > |data| - p { take := |data| - p; }
        FedSteps(m, data, p, take);
        Take(data[p..p + take]);
        p := p + take;
      }
    }

    ghost predicate Buffered()
      reads this`n, this`msg, h, buf
    {
      && h.Length == 5 && buf.Length == 64 && n == |msg| % 64
      && buf[..n] == msg[|msg| - n..] && Words() == Digested(msg)
    }

    lemma BufferedIs()
      requires Buffered()
      ensures n == |msg| % 64 && n < 64
    {}

    /** One turn of the update loop: no more than fills the buffer. */
    method Take(d: seq<u8>)
      requires Buffered() && n + |d| <= 64
      modifies this`n, this`msg, h, buf
      ensures Buffered() && n < 64 && msg == old(msg) + d
    {
      hide Compress, Digested, Words;
      ghost var whole, part := msg[..|msg| - n], msg[|msg| - n..];
      Boundaries(msg, n, d);
      DigestedWhole(whole, part);
      CopyIn(d);
      msg := msg + d;
      n := n + |d|;
      if n == 64 {
        assert buf[..64] == buf[..];
        Block();
        DigestedBlock(whole, part + d);
        n := 0;
      } else {
        DigestedWhole(whole, part + d);
      }
    }

    /** memcpy behind the bytes already buffered. */
    method CopyIn(d: seq<u8>)
      requires buf.Length == 64 && n + |d| <= 64
      modifies buf
      ensures buf[..n + |d|] == old(buf[..n]) + d
    {
      for i := 0 to |d|
        invariant buf[..n + i] == old(buf[..n]) + d[..i]
      {
        buf[n + i] := d[i];
        assert buf[..n + i + 1] == buf[..n + i] + [d[i]];
      }
    }

    /** sha1_final. */
    method Final() returns (out: seq<u8>)
      requires Valid()
      modifies this, h, buf
      ensures out == Digest(old(msg))
    {
      hide LengthField, Out, Digested, Wrap64, Words;
      ghost var m := msg;
      WrapBits(|m|);
      var bits := Wrap64(8 * len);
      AddPadding();
      var field := LengthBytes(bits);
      Update(field);
      assert msg == Pad(m);
      out := OutBytes();
    }

    /** The 0x80 and the padding loop. */
    method AddPadding()
      requires Valid()
      modifies this, h, buf
      ensures Valid() && msg == old(msg) + [0x80] + Zeros(ZeroCount(|old(msg)|))
    {
      hide Buffered, Wrap64, ZeroCount, Zeros;
      ghost var m := msg;
      Update([0x80]);
      BufferedIs();
      ghost var k := 0;
      ZerosGrow(0);
      while n != 56
        invariant Valid() && k <= ZeroCount(|m|) && msg == m + [0x80] + Zeros(k) && n == |msg| % 64
        decreases ZeroCount(|m|) - k
      {
        StillShort(|m|, k);
        assert |msg| == |m| + 1 + k;
        Update([0]);
        BufferedIs();
        ZerosGrow(k);
        assert m + [0x80] + Zeros(k) + [0] == m + [0x80] + (Zeros(k) + [0]);
        k := k + 1;
      }
      StillShort(|m|, k);
      assert |msg| == |m| + 1 + k;
    }

    method OutBytes() returns (out: seq<u8>)
      requires h.Length == 5
      ensures out == Out(Words())
    {
      hide OutByte;
      out := [];
      for i := 0 to 5
        invariant out == OutFirst(Words(), i)
      {
        out := out + [OutByte(h[i], 0), OutByte(h[i], 1), OutByte(h[i], 2), OutByte(h[i], 3)];
      }
    }

    method LengthBytes(bits: nat) returns (field: seq<u8>)
      ensures field == LengthField(bits)
    {
      hide Low, Shr;
      field := [];
      for i := 0 to 8
        invariant |field| == i && forall j :: 0 <= j < i ==> field[j] == LengthByte(bits, j)
      {
        field := field + [Low(Shr(bits, 56 - i * 8))];
      }
    }
  }

  /** The whole blocks of a message and the part after them, before and after `d`. */
  lemma Boundaries(m: seq<u8>, n: nat, d: seq<u8>)
    requires n == |m| % 64 && n + |d| <= 64
    ensures var whole, part := m[..|m| - n], m[|m| - n..];
      && |whole| % 64 == 0 && |part| == n && m == whole + part && m + d == whole + (part + d)
      && (n + |d| == 64 ==> |m + d| % 64 == 0)
      && (n + |d| < 64 ==> |m + d| % 64 == n + |d| && (m + d)[|m + d| - (n + |d|)..] == part + d)
  {}

  lemma ZerosGrow(k: nat)
    ensures Zeros(k) + [0] == Zeros(k + 1) && Zeros(0) == []
  {}

  /** The padding loop stops at the first length that is 56 modulo 64. */
  lemma StillShort(n: nat, k: nat)
    requires k <= ZeroCount(n)
    ensures (n + 1 + k) % 64 == 56 <==> k == ZeroCount(n)
  {}

  /** Init, any number of updates, final: only the bytes matter, not how they are split. */
  method HashChunks(chunks: seq<seq<u8>>) returns (out: seq<u8>)
    ensures out == Digest(Flatten(chunks))
  {
    hide Digest;
    var s := new Hasher();
    for i := 0 to |chunks|
      invariant fresh(s) && fresh(s.h) && fresh(s.buf) && s.Valid() && s.msg == Flatten(chunks[..i])
    {
      s.Update(chunks[i]);
      assert chunks[..i + 1][..i] == chunks[..i];
    }
    assert chunks[..|chunks|] == chunks;
    out := s.Final();
  }
}

/** The one-shot SHA-1 of the display server. */
module Sha1OneShot {
  import opened Bytes
  import opened Sha1Spec
  import opened Sha1Stream

  /** The byte at position `p` of the padded message, case by case. */
  function PadAt(m: seq<u8>, p: nat): u8
    requires p < |Pad(m)|
  {
    PadFits(m);
    if p < |m| then m[p]
    else if p == |m| then 0x80
    else if p < |Pad(m)| - 8 then 0
    else LengthByte(BitLength(|m|), p - (|Pad(m)| - 8))
  }

  lemma PadAtIs(m: seq<u8>, p: nat)
    requires p < |Pad(m)|
    ensures Pad(m)[p] == PadAt(m, p)
  {
    hide LengthByte, BitLength, ZeroCount;
    PadFits(m);
  }

  // ----- building words byte by byte -----

  function Put0(n: bv32, d: bv32): bv32 { (n & 0x00ffffff) | (d << 24) }
  function Put1(n: bv32, d: bv32): bv32 { (n & 0xff00ffff) | (d << 16) }
  function Put2(n: bv32, d: bv32): bv32 { (n & 0xffff00ff) | (d << 8) }
  function Put3(n: bv32, d: bv32): bv32 { (n & 0xffffff00) | d }

  /** n with byte `r` replaced. */
  function Insert(n: bv32, r: nat, d: bv32): bv32 {
    if r == 0 then Put0(n, d) else if r == 1 then Put1(n, d) else if r == 2 then Put2(n, d) else Put3(n, d)
  }

  function Keep1(n: bv32): bv32 { n & 0xff000000 }
  function Keep2(n: bv32): bv32 { n & 0xffff0000 }
  function Keep3(n: bv32): bv32 { n & 0xffffff00 }

  /** The first `r` bytes of `n`. */
  function Keep(n: bv32, r: nat): bv32 {
    if r == 0 then 0 else if r == 1 then Keep1(n) else if r == 2 then Keep2(n) else if r == 3 then Keep3(n) else n
  }

  function Place0(d: bv32): bv32 { d << 24 }
  function Place1(p: bv32, d: bv32): bv32 { p | (d << 16) }
  function Place2(p: bv32, d: bv32): bv32 { p | (d << 8) }
  function Place3(p: bv32, d: bv32): bv32 { p | d }

  function Head(r: nat, b0: bv32, b1: bv32, b2: bv32, b3: bv32): bv32 {
    if r == 0 then 0
    else if r == 1 then Place0(b0)
    else if r == 2 then Place1(Place0(b0), b1)
    else if r == 3 then Place2(Place1(Place0(b0), b1), b2)
    else Place3(Place2(Place1(Place0(b0), b1), b2), b3)
  }

  /** The first `r` bytes of `n` are those given. */
  predicate Begun(n: bv32, r: nat, b0: bv32, b1: bv32, b2: bv32, b3: bv32) {
    Keep(n, r) == Head(r, b0, b1, b2, b3)
  }

  lemma Insert0(n: bv32, d: bv32)
    requires d <= 0xff
    ensures Keep1(Put0(n, d)) == Place0(d)
  {}

  lemma Insert1(n: bv32, d: bv32)
    requires d <= 0xff
    ensures Keep2(Put1(n, d)) == Place1(Keep1(n), d)
  {}

  lemma Insert2(n: bv32, d: bv32)
    requires d <= 0xff
    ensures Keep3(Put2(n, d)) == Place2(Keep2(n), d)
  {}

  lemma Insert3(n: bv32, d: bv32)
    ensures Put3(n, d) == Place3(Keep3(n), d)
  {}

  lemma InsertSteps(n: bv32, r: nat, b0: bv32, b1: bv32, b2: bv32, b3: bv32)
    requires r < 4 && Begun(n, r, b0, b1, b2, b3)
    requires b0 <= 0xff && b1 <= 0xff && b2 <= 0xff && b3 <= 0xff
    ensures Begun(Insert(n, r, if r == 0 then b0 else if r == 1 then b1 else if r == 2 then b2 else b3), r + 1, b0,
            b1, b2, b3)
  {
    hide Put0, Put1, Put2, Put3, Keep1, Keep2, Keep3, Place0, Place1, Place2, Place3;
    if r == 0 {
      Insert0(n, b0);
    } else if r == 1 {
      Insert1(n, b1);
    } else if r == 2 {
      Insert2(n, b2);
    } else {
      Insert3(n, b3);
    }
  }

  lemma WideSmall(b: u8)
    ensures Wide(b) <= 0xff
  {}

  /** Words before `k` are whole; word `k` has its first `r` bytes. */
  predicate FilledTo(w: seq<bv32>, block: seq<u8>, k: nat, r: nat)
    requires |w| >= 16 && |block| == 64
  {
    && k <= 16
    && (forall q :: 0 <= q < k ==> w[q] == WordAt(block, q))
    && (k < 16 ==> WordBegun(w[k], block, k, r))
  }

  /** After `i` bytes of `block`. */
  predicate Filled(w: seq<bv32>, block: seq<u8>, i: nat)
    requires |w| >= 16 && |block| == 64
  {
    FilledTo(w, block, i / 4, i % 4)
  }

  function WordAt(block: seq<u8>, k: nat): bv32
    requires |block| == 64 && k < 16
  {
    Word(block[4 * k], block[4 * k + 1], block[4 * k + 2], block[4 * k + 3])
  }

  predicate WordBegun(n: bv32, block: seq<u8>, k: nat, r: nat)
    requires |block| == 64 && k < 16
  {
    Begun(n, r, Wide(block[4 * k]), Wide(block[4 * k + 1]), Wide(block[4 * k + 2]), Wide(block[4 * k + 3]))
  }

  lemma WordStep(n: bv32, block: seq<u8>, k: nat, r: nat)
    requires |block| == 64 && k < 16 && r < 4 && WordBegun(n, block, k, r)
    ensures var n' := Insert(n, r, Wide(block[4 * k + r]));
      WordBegun(n', block, k, r + 1) && (r == 3 ==> n' == WordAt(block, k))
  {
    hide Wide, Insert, Begun;
    WideSmall(block[4 * k]);
    WideSmall(block[4 * k + 1]);
    WideSmall(block[4 * k + 2]);
    WideSmall(block[4 * k + 3]);
    InsertSteps(n, r, Wide(block[4 * k]), Wide(block[4 * k + 1]), Wide(block[4 * k + 2]), Wide(block[4 * k + 3]));
    var n' := Insert(n, r, Wide(block[4 * k + r]));
    if r == 3 {
      BegunAll(n', Wide(block[4 * k]), Wide(block[4 * k + 1]), Wide(block[4 * k + 2]), Wide(block[4 * k + 3]));
    }
  }

  lemma BegunAll(n: bv32, b0: bv32, b1: bv32, b2: bv32, b3: bv32)
    requires Begun(n, 4, b0, b1, b2, b3)
    ensures n == Join(b0, b1, b2, b3)
  {}

  lemma FilledToStep(w: seq<bv32>, block: seq<u8>, k: nat, r: nat)
    requires |w| >= 16 && |block| == 64 && k < 16 && r < 4 && FilledTo(w, block, k, r)
    ensures var w' := w[k := Insert(w[k], r, Wide(block[4 * k + r]))];
      if r < 3 then FilledTo(w', block, k, r + 1) else FilledTo(w', block, k + 1, 0)
  {
    hide Insert, Wide, WordAt, WordBegun;
    WordStep(w[k], block, k, r);
    if r == 3 && k + 1 < 16 { AnyBegun(w[k + 1], block, k + 1); }
  }

  lemma FilledStep(w: seq<bv32>, block: seq<u8>, i: nat)
    requires |w| >= 16 && |block| == 64 && i < 64 && Filled(w, block, i)
    ensures Filled(w[i / 4 := Insert(w[i / 4], i % 4, Wide(block[i]))], block, i + 1)
  {
    hide FilledTo, Insert, Wide;
    FilledToStep(w, block, i / 4, i % 4);
    if i % 4 < 3 {
      assert (i + 1) / 4 == i / 4 && (i + 1) % 4 == i % 4 + 1;
    } else {
      assert (i + 1) / 4 == i / 4 + 1 && (i + 1) % 4 == 0;
    }
  }

  lemma AnyBegun(n: bv32, block: seq<u8>, k: nat)
    requires |block| == 64 && k < 16
    ensures WordBegun(n, block, k, 0)
  {}

  // ----- the blocks -----

  /** How many bytes of the message lie before position `p`. */
  function Before(m: seq<u8>, p: nat): nat { if p < |m| then p else |m| }

  /** The flags of the byte loop at position `p`: `tail` once the 0x80 is out, `length` while
      the length field is being written. */
  predicate Flags(m: seq<u8>, p: nat, pos: nat, cnt: nat, tail: bool, length: bool) {
    && p <= |Pad(m)| && pos == Before(m, p) && cnt == Wrap64(8 * pos)
    && (tail <==> p > |m|) && (length <==> p > |Pad(m)| - 8)
  }

  /** The byte loop over one block: bytes from the message, then 0x80, zeros and the length. */
  method FillBlock(m: seq<u8>, ghost base: nat, w: array<bv32>, rem: nat, pos0: nat, cnt0: nat, tail0: bool)
    returns (pos: nat, cnt: nat, tail: bool, done: bool)
    requires Aligned(base) && base < |Pad(m)| && base + 64 <= |Pad(m)| && w.Length == 80
    requires rem == (if |m| > base then |m| - base else 0) && Flags(m, base, pos0, cnt0, tail0, false)
    modifies w
    ensures FilledTo(w[..], Pad(m)[base..base + 64], 16, 0)
    ensures Flags(m, base + 64, pos, cnt, tail, done) && (done <==> base + 64 == |Pad(m)|)
  {
    hide Insert, Wide, FilledTo, Pad, LengthByte, Wrap64, Low, Shr;
    PadFits(m);
    ghost var block := Pad(m)[base..base + 64];
    pos, cnt, tail, done := pos0, cnt0, tail0, false;
    var length := false;
    StartFilled(w[..], block);
    for i := 0 to 64
      invariant Flags(m, base + i, pos, cnt, tail, length)
      invariant done <==> base + i == |Pad(m)|
      invariant Filled(w[..], block, i)
    {
      var n, d := w[i / 4], 0;
      ByteAt(m, base, i, rem, pos, cnt, tail, length);
      WrapAdds(8 * pos, 8);
      if rem > i {
        d := m[pos];
        pos := pos + 1;
        cnt := Wrap64(cnt + 8);
      } else if !tail && i == rem {
        d := 0x80;
        tail := true;
      } else if tail && i >= 56 {
        if i == 56 { length := true; }
        if length {
          d := Low(Shr(cnt, 64 - (i - 56 + 1) * 8));
          if i == 63 { done := true; }
        }
      }
      FilledStep(w[..], block, i);
      w[i / 4] := Insert(n, i % 4, Wide(d));
    }
  }

  lemma StartFilled(w: seq<bv32>, block: seq<u8>)
    requires |w| >= 16 && |block| == 64
    ensures Filled(w, block, 0)
  {
    AnyBegun(w[0], block, 0);
  }

  /** What the branch taken by the byte loop says about the padded message. */
  lemma ByteAt(m: seq<u8>, base: nat, i: nat, rem: nat, pos: nat, cnt: nat, tail: bool, length: bool)
    requires base % 64 == 0 && base + 64 <= |Pad(m)| && i < 64
    requires rem == (if |m| > base then |m| - base else 0) && Flags(m, base + i, pos, cnt, tail, length)
    ensures Pad(m)[base..base + 64][i] == Pad(m)[base + i]
    ensures rem > i <==> base + i < |m|
    ensures !tail && i == rem <==> base + i == |m|
    ensures rem > i ==> Pad(m)[base + i] == m[pos]
    ensures base + i == |m| ==> Pad(m)[base + i] == 0x80
    ensures tail && i >= 56 ==> ((length || i == 56) <==> base + i >= |Pad(m)| - 8)
    ensures tail && base + i >= |Pad(m)| - 8 ==>
            i >= 56 && 64 - (i - 56 + 1) * 8 >= 0 && Pad(m)[base + i] == Low(Shr(cnt, 64 - (i - 56 + 1) * 8))
    ensures tail && base + i < |Pad(m)| - 8 ==> Pad(m)[base + i] == 0
  {
    hide Wrap64, Low, Shr;
    PadFits(m);
    PadAtIs(m, base + i);
    hide Pad;
  }

  lemma {:induction false} FirstWords(w: seq<bv32>, block: seq<u8>, n: nat)
    requires |w| >= 16 && |block| == 64 && n <= 16 && FilledTo(w, block, 16, 0)
    ensures w[..n] == Schedule(block, n)
  {
    hide WordBegun;
    if n > 0 {
      FirstWords(w, block, n - 1);
      assert w[n - 1] == WordAt(block, n - 1);
      assert w[..n] == w[..n - 1] + [w[n - 1]];
      hide Word;
    }
  }

  method RolledMix(x: bv32, y: bv32, z: bv32, u: bv32) returns (w: bv32)
    ensures w == Mixed(x, y, z, u)
  {
    w := ((x ^ y ^ z ^ u) << 1) | ((x ^ y ^ z ^ u) >> 31);
  }

  /** The rest of the schedule. */
  method ExpandFrom16(w: array<bv32>, ghost block: seq<u8>)
    requires w.Length == 80 && |block| == 64 && w[..16] == Schedule(block, 16)
    modifies w
    ensures w[..] == Schedule(block, 80)
  {
    hide Word, Mixed;
    for i := 16 to 80
      invariant w[..i] == Schedule(block, i)
    {
      w[i] := RolledMix(w[i - 3], w[i - 8], w[i - 14], w[i - 16]);
      assert w[i] == Mix(w[..i], i);
      assert w[..i + 1] == w[..i] + [w[i]];
    }
    assert w[..] == w[..80];
  }

  ghost function Five(h: array<bv32>): State
    reads h
    requires h.Length == 5
  {
    State(h[0], h[1], h[2], h[3], h[4])
  }

  // ----- the expressions of the rounds, on v[1], v[2] and v[3] -----

  method Picks(x: bv32, y: bv32, z: bv32) returns (f: bv32)
    ensures f == Select(x, y, z)
  {
    f := (x & y) | (!x & z);
  }

  method Flips(x: bv32, y: bv32, z: bv32) returns (f: bv32)
    ensures f == Parity(x, y, z)
  {
    f := x ^ y ^ z;
  }

  method Votes(x: bv32, y: bv32, z: bv32) returns (f: bv32)
    ensures f == Majority(x, y, z)
  {
    f := (x & y) | (x & z) | (y & z);
  }

  method RolledBy5(x: bv32) returns (r: bv32)
    ensures r == Rol5(x)
  {
    r := (x << 5) | (x >> 27);
  }

  method RolledBy30(x: bv32) returns (r: bv32)
    ensures r == Rol30(x)
  {
    r := (x << 30) | (x >> 2);
  }

  method SumOf(r: bv32, f: bv32, e: bv32, k: bv32, w: bv32) returns (t: bv32)
    ensures t == Sum(r, f, e, k, w)
  {
    t := r + f + e + k + w;
  }

  method RoundSum(i: nat, v: array<bv32>, w: bv32) returns (t: bv32)
    requires v.Length == 5
    ensures t == Temp(i, v[0], v[1], v[2], v[3], v[4], w)
  {
    hide Select, Parity, Majority, Sum, Rol5;
    var f: bv32, k: bv32;
    if i < 20 {
      f := Picks(v[1], v[2], v[3]);
      k := 0x5a827999;
    } else if i < 40 {
      f := Flips(v[1], v[2], v[3]);
      k := 0x6ed9eba1;
    } else if i < 60 {
      f := Votes(v[1], v[2], v[3]);
      k := 0x8f1bbcdc;
    } else {
      f := Flips(v[1], v[2], v[3]);
      k := 0xca62c1d6;
    }
    var r := RolledBy5(v[0]);
    t := SumOf(r, f, v[4], k, w);
  }

  /** The eighty rounds on the array `v`, added into `h`. */
  method MixIn(h: array<bv32>, w: array<bv32>, v: array<bv32>)
    requires h.Length == 5 && v.Length == 5 && w.Length == 80 && h != v && h != w && v != w
    modifies h, v
    ensures Five(h) == Plus(old(Five(h)), Rounds(old(Five(h)), w[..], 80))
  {
    hide Rol30, Temp, Add;
    ghost var ws := w[..];
    for i := 0 to 5
      invariant forall k :: 0 <= k < i ==> v[k] == h[k]
      invariant Five(h) == old(Five(h)) && w[..] == ws
    {
      v[i] := h[i];
    }
    ghost var s0 := Five(h);
    for i := 0 to 80
      invariant Five(v) == Rounds(s0, ws, i) && w[..] == ws && Five(h) == s0
    {
      var t := RoundSum(i, v, w[i]);
      v[4] := v[3];
      v[3] := v[2];
      v[2] := RolledBy30(v[1]);
      v[1] := v[0];
      v[0] := t;
    }
    h[0], h[1], h[2], h[3], h[4] := Add(h[0], v[0]), Add(h[1], v[1]), Add(h[2], v[2]), Add(h[3], v[3]), Add(h[4], v[4]);
  }

  /** One turn of the outer loop. */
  method DoBlock(m: seq<u8>, ghost base: nat, h: array<bv32>, v: array<bv32>, w: array<bv32>, rem: nat, pos0: nat,
      cnt0: nat, tail0: bool)
    returns (pos: nat, cnt: nat, tail: bool, done: bool)
    requires Aligned(base) && base < |Pad(m)| && base + 64 <= |Pad(m)|
    requires w.Length == 80 && h.Length == 5 && v.Length == 5 && h != v && h != w && v != w
    requires rem == (if |m| > base then |m| - base else 0) && Flags(m, base, pos0, cnt0, tail0, false)
    modifies h, v, w
    ensures Five(h) == Compress(old(Five(h)), Pad(m)[base..base + 64])
    ensures Flags(m, base + 64, pos, cnt, tail, done) && (done <==> base + 64 == |Pad(m)|)
  {
    hide Rounds, Schedule, Pad, FilledTo, Flags;
    ghost var block := Pad(m)[base..base + 64];
    pos, cnt, tail, done := FillBlock(m, base, w, rem, pos0, cnt0, tail0);
    FirstWords(w[..], block, 16);
    assert w[..][..16] == w[..16];
    ExpandFrom16(w, block);
    MixIn(h, w, v);
  }

  method WriteOut(h: array<bv32>) returns (md: seq<u8>)
    requires h.Length == 5
    ensures md == Out(Five(h))
  {
    hide OutByte;
    md := [];
    for i := 0 to 5
      invariant md == OutFirst(Five(h), i)
    {
      md := md + [OutByte(h[i], 0), OutByte(h[i], 1), OutByte(h[i], 2), OutByte(h[i], 3)];
    }
  }

  /** sha1: one block after another until the length field is out. */
  method OneShot(m: seq<u8>) returns (md: seq<u8>)
    ensures md == Digest(m)
  {
    var h := new bv32[5];
    h[0], h[1], h[2], h[3], h[4] := 0x67452301, 0xefcdab89, 0x98badcfe, 0x10325476, 0xc3d2e1f0;
    var v, w := new bv32[5], new bv32[80];
    assert Five(h) == INITIAL;
    Rest(m, h, v, w);
    md := WriteOut(h);
  }

  /** The outer loop. */
  method Rest(m: seq<u8>, h: array<bv32>, v: array<bv32>, w: array<bv32>)
    requires w.Length == 80 && h.Length == 5 && v.Length == 5 && h != v && h != w && v != w && Five(h) == INITIAL
    modifies h, v, w
    ensures Five(h) == Digested(Pad(m))
  {
    hide Digested, Compress, Pad, Flags, Five, OnBlock, Aligned;
    var rem, pos, cnt := |m|, 0, 0;
    var tail, done := false, false;
    ghost var base := 0;
    ghost var padded := Pad(m);
    NothingYet(m);
    while !done
      invariant OnBlock(base, |padded|) && base <= |padded| && (done <==> base == |padded|)
      invariant rem == if |m| > base then |m| - base else 0
      invariant Flags(m, base, pos, cnt, tail, done)
      invariant Five(h) == Digested(padded[..base])
      decreases |padded| - base
    {
      OnBlockNext(base, |padded|);
      ghost var block := padded[base..base + 64];
      pos, cnt, tail, done := DoBlock(m, base, h, v, w, rem, pos, cnt, tail);
      rem := if rem > 64 then rem - 64 else 0;
      assert padded[..base] + block == padded[..base + 64];
      DigestedBlock(padded[..base], block);
      base := base + 64;
    }
    assert padded[..base] == padded;
  }

  predicate Aligned(n: nat) { n % 64 == 0 }

  /** Both positions are at block boundaries. */
  predicate OnBlock(base: nat, total: nat) { Aligned(base) && Aligned(total) && base <= total }

  lemma OnBlockNext(base: nat, total: nat)
    requires OnBlock(base, total) && base < total
    ensures Aligned(base) && base % 64 == 0 && base + 64 <= total && OnBlock(base + 64, total)
  {}

  lemma NothingYet(m: seq<u8>)
    ensures Flags(m, 0, 0, 0, false, false) && Digested(Pad(m)[..0]) == INITIAL && OnBlock(0, |Pad(m)|) && |Pad(m)| > 0
  {
    PadFits(m);
    hide Pad;
  }

  /** The two implementations agree, for every message and every way of splitting it. */
  method BothWays(chunks: seq<seq<u8>>) returns (streamed: seq<u8>, whole: seq<u8>)
    ensures streamed == whole
  {
    hide Digest;
    streamed := HashChunks(chunks);
    whole := OneShot(Flatten(chunks));
  }
}
