/** WebSocket frames (sections 5.2 and 5.3 of RFC 6455) as nc_ws builds and parses them. */
module WebSocket {
  import opened Wrappers
  import opened Bytes

  /** What nc_ws_frame_parse reports: the payload unmasked. */
  datatype Frame = Frame(fin: bool, opcode: nat, payload: seq<u8>)

  /** No mask, or four mask bytes. */
  type Mask = m: seq<u8> | |m| == 0 || |m| == 4

  /** Exclusive or of the lowest `k` bits. */
  function XorBits(a: nat, b: nat, k: nat): (r: nat)
    ensures r < Exp2(k)
  {
    if k == 0 then 0 else 2 * XorBits(a / 2, b / 2, k - 1) + (if a % 2 == b % 2 then 0 else 1)
  }

  function Exp2(k: nat): nat { if k == 0 then 1 else 2 * Exp2(k - 1) }

  function Xor(a: u8, b: u8): u8 {
    assert Exp2(8) == 256 by { Exp8(); }
    XorBits(a, b, 8)
  }

  lemma Exp8()
    ensures Exp2(8) == 256
  {
    assert Exp2(4) == 16;
  }

  lemma {:induction false} XorBitsTwice(a: nat, b: nat, k: nat)
    requires a < Exp2(k)
    ensures XorBits(XorBits(a, b, k), b, k) == a
  {
    if k > 0 {
      XorBitsTwice(a / 2, b / 2, k - 1);
      var r, q := XorBits(a, b, k), XorBits(a / 2, b / 2, k - 1);
      assert r / 2 == q && r % 2 == if a % 2 == b % 2 then 0 else 1;
    }
  }

  lemma XorTwice(a: u8, k: u8)
    ensures Xor(Xor(a, k), k) == a
  {
    Exp8();
    XorBitsTwice(a, k, 8);
  }

  function Bit(n: nat, i: nat): nat
    decreases i
  {
    if i == 0 then n % 2 else Bit(n / 2, i - 1)
  }

  lemma {:induction false} XorBitAt(a: nat, b: nat, k: nat, i: nat)
    requires i < k
    ensures Bit(XorBits(a, b, k), i) == if Bit(a, i) == Bit(b, i) then 0 else 1
  {
    var r, q := XorBits(a, b, k), XorBits(a / 2, b / 2, k - 1);
    assert r / 2 == q && r % 2 == if a % 2 == b % 2 then 0 else 1;
    if i > 0 { XorBitAt(a / 2, b / 2, k - 1, i - 1); }
  }

  /** Byte i is combined with mask byte i mod 4. */
  function Masked(data: seq<u8>, key: seq<u8>): (r: seq<u8>)
    requires |key| == 4
    ensures |r| == |data|
  {
    seq(|data|, i requires 0 <= i < |data| => Xor(data[i], key[i % 4]))
  }

  lemma MaskedTwice(data: seq<u8>, key: seq<u8>)
    requires |key| == 4
    ensures Masked(Masked(data, key), key) == data
  {
    forall i | 0 <= i < |data| ensures Masked(Masked(data, key), key)[i] == data[i] {
      XorTwice(data[i], key[i % 4]);
    }
  }

  // ----- big-endian lengths -----

  function Big(bs: seq<u8>): nat {
    if bs == [] then 0 else Big(bs[..|bs| - 1]) * 0x100 + bs[|bs| - 1]
  }

  function BigBytes(n: nat, k: nat): (r: seq<u8>)
    ensures |r| == k
  {
    if k == 0 then [] else BigBytes(n / 0x100, k - 1) + [n % 0x100]
  }

  function Limit(k: nat): nat { if k == 0 then 1 else Limit(k - 1) * 0x100 }

  lemma {:induction false} BigRoundTrip(n: nat, k: nat)
    requires n < Limit(k)
    ensures Big(BigBytes(n, k)) == n
  {
    if k > 0 {
      BigRoundTrip(n / 0x100, k - 1);
      assert BigBytes(n, k)[..k - 1] == BigBytes(n / 0x100, k - 1);
    }
  }

  /** (uint8_t)(n >> 8 j). */
  function ByteOf(n: nat, j: nat): u8
    decreases j
  {
    if j == 0 then n % 0x100 else ByteOf(n / 0x100, j - 1)
  }

  lemma {:induction false} BigByteAt(n: nat, k: nat, i: nat)
    requires i < k
    ensures BigBytes(n, k)[i] == ByteOf(n, k - 1 - i)
  {
    if i < k - 1 { BigByteAt(n / 0x100, k - 1, i); }
  }

  // ----- the format -----

  function LengthCode(n: nat): (c: nat)
    ensures c < 128
  {
    if n > 0xffff then 127 else if n >= 126 then 126 else n
  }

  function LengthBytes(n: nat): seq<u8> {
    if n > 0xffff then BigBytes(n, 8) else if n >= 126 then BigBytes(n, 2) else []
  }

  function Head(opcode: nat, n: nat, mask: Mask): (h: seq<u8>)
    ensures |h| == 2 + |LengthBytes(n)| + |mask|
  {
    [0x80 + opcode % 0x10, (if mask == [] then 0 else 0x80) + LengthCode(n)] + LengthBytes(n) + mask
  }

  function Body(payload: seq<u8>, mask: Mask): (b: seq<u8>)
    ensures |b| == |payload|
  {
    if mask == [] then payload else Masked(payload, mask)
  }

  /** nc_ws_frame_build. */
  function Encode(opcode: nat, payload: seq<u8>, mask: Mask): seq<u8> {
    Head(opcode, |payload|, mask) + Body(payload, mask)
  }

  /** The length of the extended length field that the second byte announces. */
  function Extra(b: u8): nat { if b % 0x80 == 127 then 8 else if b % 0x80 == 126 then 2 else 0 }

  function MaskLen(b: u8): nat { if b >= 0x80 then 4 else 0 }

  /** Header size and payload length, once enough bytes are there. */
  function Sizes(buf: seq<u8>): Option<(nat, nat)> {
    if |buf| < 2 || |buf| < 2 + Extra(buf[1]) then None
    else
      Some((2 + Extra(buf[1]) + MaskLen(buf[1]),
            if Extra(buf[1]) == 0 then buf[1] % 0x80 else Big(buf[2..2 + Extra(buf[1])])))
  }

  /** What nc_ws_frame_parse makes of a buffer: nothing yet, a frame and the bytes it takes
      up, or a frame that reaches past the bytes received and the value returned for it. */
  datatype Parsed = Waiting | Whole(frame: Frame, n: nat) | Overrun(declared: nat, n: nat)

  /** Sums of 64-bit lengths wrap. */
  function Wrap64(n: nat): nat { if n < TWO64 then n else n - TWO64 }

  const TWO64 := 0x1_0000_0000_0000_0000

  /** nc_ws_frame_parse. */
  function Decode(buf: seq<u8>): (r: Parsed)
    ensures r.Whole? ==> 2 <= r.n <= |buf|
  {
    match Sizes(buf)
    case None => Waiting
    case Some(s) =>
      var (hdr, n) := s;
      if |buf| < Wrap64(hdr + n) then Waiting
      else if |buf| < hdr + n then Overrun(n, Wrap64(hdr + n))
      else
        var data := buf[hdr..hdr + n];
        var payload := if buf[1] >= 0x80 then Masked(data, buf[hdr - 4..hdr]) else data;
        Whole(Frame(buf[0] >= 0x80, buf[0] % 0x10, payload), hdr + n)
  }

  /** Header and declared length together stay below 2^64. */
  predicate Bounded(buf: seq<u8>) { Sizes(buf).Some? ==> Sizes(buf).value.0 + Sizes(buf).value.1 < TWO64 }

  lemma {:induction false} BigBound(bs: seq<u8>)
    ensures Big(bs) < Limit(|bs|)
  {
    if bs != [] { BigBound(bs[..|bs| - 1]); }
  }

  lemma SizesBound(buf: seq<u8>)
    requires Sizes(buf).Some?
    ensures Sizes(buf).value.0 <= 14 && Sizes(buf).value.1 < TWO64
  {
    hide Big, Limit;
    Limits();
    var e := Extra(buf[1]);
    BigBound(buf[2..2 + e]);
    assert |buf[2..2 + e]| == e && (e == 0 || e == 2 || e == 8);
  }

  /** A frame is reported that reaches past the bytes received exactly when its length field is
      there, header and declared length reach 2^64, and what is left of their sum is there. */
  lemma InsideExactly(buf: seq<u8>)
    requires |buf| < TWO64
    ensures Decode(buf).Overrun? <==>
            Sizes(buf).Some? && !Bounded(buf) && |buf| + TWO64 >= Sizes(buf).value.0 + Sizes(buf).value.1
  {
    if Sizes(buf).Some? { SizesBound(buf); }
    hide Sizes, Masked;
  }

  /** With the whole header received, header and declared length alone decide. */
  lemma HeaderDecides(buf: seq<u8>)
    requires Sizes(buf).Some? && Sizes(buf).value.0 <= |buf| < TWO64
    ensures Decode(buf).Overrun? <==> !Bounded(buf)
  {
    InsideExactly(buf);
    SizesBound(buf);
    hide Sizes, Decode;
  }

  lemma BoundedIsInside(buf: seq<u8>)
    requires Bounded(buf)
    ensures !Decode(buf).Overrun?
  {
    hide Sizes, Masked;
  }

  /** The 14 bytes of a masked header that declares 2^64 - 1 bytes: the sum wraps to 13, so
      the frame counts as arrived. */
  lemma WrappedLength()
    ensures var buf: seq<u8> := [0x82, 0xff, 0xff, 0xff, 0xff, 0xff, 0xff, 0xff, 0xff, 0xff, 1, 2, 3, 4];
      Decode(buf) == Overrun(TWO64 - 1, 13)
  {
    var buf: seq<u8> := [0x82, 0xff, 0xff, 0xff, 0xff, 0xff, 0xff, 0xff, 0xff, 0xff, 1, 2, 3, 4];
    hide Decode;
    WrapsRound(buf);
  }

  lemma WrapsRound(buf: seq<u8>)
    requires |buf| == 14 && buf[1] == 0xff && forall i :: 2 <= i < 10 ==> buf[i] == 0xff
    ensures Decode(buf) == Overrun(TWO64 - 1, 13)
  {
    hide Big, Limit, Masked;
    Limits();
    AllOnes(buf[2..10]);
  }

  /** Twelve bytes are enough: with two of the mask bytes still missing, a declared length of
      2^64 - 3 wraps to 11. */
  lemma WrappedEarly()
    ensures var buf: seq<u8> := [0x82, 0xff, 0xff, 0xff, 0xff, 0xff, 0xff, 0xff, 0xff, 0xfd, 1, 2];
      Decode(buf) == Overrun(TWO64 - 3, 11)
  {
    var buf: seq<u8> := [0x82, 0xff, 0xff, 0xff, 0xff, 0xff, 0xff, 0xff, 0xff, 0xfd, 1, 2];
    hide Decode;
    WrapsEarly(buf);
  }

  lemma WrapsEarly(buf: seq<u8>)
    requires |buf| == 12 && buf[1] == 0xff && (forall i :: 2 <= i < 9 ==> buf[i] == 0xff) && buf[9] == 0xfd
    ensures Decode(buf) == Overrun(TWO64 - 3, 11)
  {
    var bs := buf[2..10];
    assert bs[..7] == buf[2..9];
    assert Big(bs) == Big(bs[..7]) * 0x100 + bs[7];
    assert Limit(8) == Limit(7) * 0x100;
    hide Big, Limit, Masked;
    Limits();
    AllOnes(buf[2..9]);
  }

  lemma {:induction false} AllOnes(bs: seq<u8>)
    requires forall i :: 0 <= i < |bs| ==> bs[i] == 0xff
    ensures Big(bs) == Limit(|bs|) - 1
  {
    if bs != [] { AllOnes(bs[..|bs| - 1]); }
  }

  // ----- round trip -----

  lemma SizesEncoded(opcode: nat, payload: seq<u8>, mask: Mask, k: nat, rest: seq<u8>)
    requires |payload| < 0x1_0000_0000_0000_0000
    ensures var head := Head(opcode, |payload|, mask);
      && (Sizes(head + rest) == Some((|head|, |payload|)))
      && (k < |head| ==> Sizes(head[..k]).None? || Sizes(head[..k]) == Some((|head|, |payload|)))
  {
    var n := |payload|;
    var head := Head(opcode, n, mask);
    var e := |LengthBytes(n)|;
    LengthReads(n);
    assert head[2..2 + e] == LengthBytes(n);
    assert (head + rest)[2..2 + e] == LengthBytes(n);
    if 2 + e <= k < |head| { assert head[..k][2..2 + e] == LengthBytes(n); }
    hide Big, BigBytes, LengthBytes;
  }

  /** The length fields say what they should. */
  lemma LengthReads(n: nat)
    requires n < 0x1_0000_0000_0000_0000
    ensures |LengthBytes(n)| == (if LengthCode(n) == 127 then 8 else if LengthCode(n) == 126 then 2 else 0)
    ensures LengthBytes(n) != [] ==> Big(LengthBytes(n)) == n
    ensures LengthBytes(n) == [] ==> LengthCode(n) == n
  {
    assert Limit(2) == 0x1_0000 && Limit(8) == 0x1_0000_0000_0000_0000 by { Limits(); }
    if n > 0xffff { BigRoundTrip(n, 8); } else if n >= 126 { BigRoundTrip(n, 2); }
  }

  lemma Limits()
    ensures Limit(2) == 0x1_0000 && Limit(8) == 0x1_0000_0000_0000_0000
  {
    assert Limit(2) == Limit(1) * 0x100;
    assert Limit(4) == Limit(3) * 0x100 && Limit(3) == Limit(2) * 0x100;
    assert Limit(6) == Limit(5) * 0x100 && Limit(5) == Limit(4) * 0x100;
    assert Limit(8) == Limit(7) * 0x100 && Limit(7) == Limit(6) * 0x100;
  }

  /** What is built parses back, whatever follows it. */
  lemma RoundTrip(opcode: nat, payload: seq<u8>, mask: Mask, rest: seq<u8>)
    requires |payload| + 14 < TWO64
    ensures Decode(Encode(opcode, payload, mask) + rest)
         == Whole(Frame(true, opcode % 0x10, payload), |Encode(opcode, payload, mask)|)
  {
    hide Sizes, LengthBytes, Masked;
    HeadSize(|payload|);
    var head, body := Head(opcode, |payload|, mask), Body(payload, mask);
    var buf := Encode(opcode, payload, mask) + rest;
    assert buf == head + (body + rest);
    SizesEncoded(opcode, payload, mask, 0, body + rest);
    assert buf[|head|..|head| + |payload|] == body;
    assert buf[0] == head[0] && buf[1] == head[1];
    if mask != [] {
      assert buf[|head| - 4..|head|] == mask;
      MaskedTwice(payload, mask);
    }
  }

  /** The header of section 5.2 of RFC 6455, byte by byte: FIN and the opcode; the mask bit and
      the length in 7 bits, or 126 and 16 bits, or 127 and 64 bits, most significant byte
      first and no longer than needed; and the mask. */
  lemma Layout(opcode: nat, payload: seq<u8>, mask: Mask)
    requires |payload| < TWO64
    ensures var b, n := Encode(opcode, payload, mask), |payload|;
            var h := |b| - n;
      && h == 2 + (if n < 126 then 0 else if n < 0x1_0000 then 2 else 8) + |mask|
      && b[0] == 0x80 + opcode % 0x10 && (b[1] >= 0x80 <==> mask != [])
      && b[1] % 0x80 == (if n < 126 then n else if n < 0x1_0000 then 126 else 127)
      && (126 <= n < 0x1_0000 ==> n == (b[2] as int) * 0x100 + b[3])
      && (0x1_0000 <= n ==> n == Quad(b[2..6]) * 0x1_0000_0000 + Quad(b[6..10]))
      && b[h - |mask|..h] == mask && (mask == [] ==> b[h..] == payload)
  {
    hide LengthBytes, Masked, Quad, Body;
    var b, n := Encode(opcode, payload, mask), |payload|;
    LengthLaidOut(n);
    var e := LengthBytes(n);
    var start := [0x80 + opcode % 0x10, (if mask == [] then 0 else 0x80) + LengthCode(n)];
    assert b == start + e + mask + Body(payload, mask);
    assert Body(payload, []) == payload by { Unmasked(payload); }
    if 0x1_0000 <= n { assert b[2..6] == e[..4] && b[6..10] == e[4..]; }
  }

  lemma Unmasked(payload: seq<u8>)
    ensures Body(payload, []) == payload
  {}

  /** And the payload of a masked frame: a bit is flipped exactly where the bit of its mask byte
      is set (section 5.3). */
  lemma MaskedLayout(opcode: nat, payload: seq<u8>, mask: Mask, i: nat, k: nat)
    requires mask != [] && i < |payload| && k < 8
    ensures var b := Encode(opcode, payload, mask);
      Bit(b[|b| - |payload| + i], k) == if Bit(mask[i % 4], k) == 1 then 1 - Bit(payload[i], k) else Bit(payload[i], k)
  {
    hide Masked, LengthBytes;
    BodyBit(payload, mask, i, k);
    BitIs(payload[i], k);
    BitIs(mask[i % 4], k);
  }

  lemma {:induction false} BitIs(n: nat, i: nat)
    ensures 0 <= Bit(n, i) <= 1
    decreases i
  {
    if i > 0 { BitIs(n / 2, i - 1); }
  }

  lemma BodyBit(payload: seq<u8>, mask: seq<u8>, i: nat, k: nat)
    requires |mask| == 4 && i < |payload| && k < 8
    ensures Bit(Masked(payload, mask)[i], k) == if Bit(payload[i], k) == Bit(mask[i % 4], k) then 0 else 1
  {
    XorBitAt(payload[i], mask[i % 4], 8, k);
  }

  /** Four bytes, most significant first. */
  function Quad(q: seq<u8>): nat
    requires |q| == 4
  {
    (q[0] as int) * 0x100_0000 + (q[1] as int) * 0x1_0000 + (q[2] as int) * 0x100 + q[3]
  }

  lemma LengthLaidOut(n: nat)
    requires n < TWO64
    ensures var e := LengthBytes(n);
      && |e| == (if n < 126 then 0 else if n < 0x1_0000 then 2 else 8)
      && (126 <= n < 0x1_0000 ==> n == (e[0] as int) * 0x100 + e[1])
      && (0x1_0000 <= n ==> n == Quad(e[..4]) * 0x1_0000_0000 + Quad(e[4..]))
  {
    LengthReads(n);
    var e := LengthBytes(n);
    hide LengthBytes;
    if |e| == 2 { BigTwo(e); }
    if |e| == 8 {
      BigFour(e[..4], []);
      BigFour(e[..4], e[4..]);
      assert e[..4] + e[4..] == e && e[..4] + [] == e[..4];
    }
  }

  lemma BigTwo(e: seq<u8>)
    requires |e| == 2
    ensures Big(e) == (e[0] as int) * 0x100 + e[1]
  {
    assert e[..1][..0] == [] && e[..1] == [e[0]];
    assert Big(e) == Big(e[..1]) * 0x100 + e[1];
  }

  lemma BigFour(a: seq<u8>, q: seq<u8>)
    requires |a| == 4 && (|q| == 0 || |q| == 4)
    ensures |q| == 0 ==> Big(a) == Quad(a)
    ensures |q| == 4 ==> Big(a + q) == Big(a) * 0x1_0000_0000 + Quad(q)
  {
    if |q| == 0 {
      BigTwo(a[..2]);
      assert a[..3][..2] == a[..2];
      assert Big(a) == Big(a[..3]) * 0x100 + a[3] && Big(a[..3]) == Big(a[..2]) * 0x100 + a[2];
    } else {
      var s := a + q;
      assert s[..7] == a + q[..3] && s[..7][..6] == a + q[..2] && s[..7][..6][..5] == a + q[..1];
      assert s[..7][..6][..5][..4] == a;
      assert Big(s) == Big(s[..7]) * 0x100 + q[3];
      assert Big(s[..7]) == Big(s[..7][..6]) * 0x100 + q[2];
      assert Big(s[..7][..6]) == Big(s[..7][..6][..5]) * 0x100 + q[1];
      assert Big(s[..7][..6][..5]) == Big(a) * 0x100 + q[0];
    }
  }

  /** A frame of a message in several frames has no FIN bit and is otherwise read the same. */
  lemma WithoutFin(opcode: nat, payload: seq<u8>, mask: Mask, rest: seq<u8>)
    requires |payload| + 14 < TWO64
    ensures var b := Encode(opcode, payload, mask);
      && b[0] >= 0x80
      && Decode([b[0] - 0x80] + b[1..] + rest) == Whole(Frame(false, opcode % 0x10, payload), |b|)
  {
    hide Decode, LengthBytes, Body;
    var b := Encode(opcode, payload, mask);
    RoundTrip(opcode, payload, mask, rest);
    hide Encode;
    FirstByte(b + rest, b[0] - 0x80);
    assert [b[0] - 0x80] + b[1..] + rest == [b[0] - 0x80] + (b + rest)[1..];
  }

  /** The first byte decides about FIN and the opcode only. */
  lemma FirstByte(a: seq<u8>, x: u8)
    requires Decode(a).Whole? && a[0] % 0x10 == x % 0x10
    ensures Decode([x] + a[1..]) == Decode(a).(frame := Decode(a).frame.(fin := x >= 0x80))
  {
    hide Sizes, Masked, Wrap64;
    var b := [x] + a[1..];
    SameSizes(a, x);
    var (hdr, n) := Sizes(a).value;
    LongHeader(a);
    SameSlice(a, x, hdr, hdr + n);
    if a[1] >= 0x80 { SameSlice(a, x, hdr - 4, hdr); }
  }

  lemma LongHeader(a: seq<u8>)
    requires Sizes(a).Some?
    ensures |a| >= 2 && Sizes(a).value.0 >= (if a[1] >= 0x80 then 6 else 2)
  {
    hide Big;
  }

  lemma SameSizes(a: seq<u8>, x: u8)
    requires |a| >= 2
    ensures Sizes([x] + a[1..]) == Sizes(a)
  {
    hide Big;
    if |a| >= 2 + Extra(a[1]) { SameSlice(a, x, 2, 2 + Extra(a[1])); }
  }

  lemma SameSlice(a: seq<u8>, x: u8, i: nat, j: nat)
    requires 1 <= i <= j <= |a|
    ensures ([x] + a[1..])[i..j] == a[i..j]
  {}

  /** No strict prefix is taken for a frame. */
  lemma PrefixWaits(opcode: nat, payload: seq<u8>, mask: Mask, k: nat)
    requires |payload| + 14 < TWO64 && k < |Encode(opcode, payload, mask)|
    ensures Decode(Encode(opcode, payload, mask)[..k]) == Waiting
  {
    HeadSize(|payload|);
    var head, body := Head(opcode, |payload|, mask), Body(payload, mask);
    var all := Encode(opcode, payload, mask);
    if k < |head| {
      assert all[..k] == head[..k];
      SizesEncoded(opcode, payload, mask, k, []);
    } else {
      assert all[..k] == head + body[..k - |head|];
      SizesEncoded(opcode, payload, mask, 0, body[..k - |head|]);
    }
    hide Sizes;
  }

  // ----- streams -----

  /** Parse until nothing more is complete: the frames and the bytes left over. */
  function DecodeAll(buf: seq<u8>): (seq<Frame>, seq<u8>)
    decreases |buf|
  {
    match Decode(buf)
    case Whole(f, n) => var (fs, left) := DecodeAll(buf[n..]); ([f] + fs, left)
    case _ => ([], buf)
  }

  /** Every header the parser comes to declares a length below 2^64 less its own. */
  predicate AllBounded(buf: seq<u8>)
    decreases |buf|
  {
    Bounded(buf) && (Decode(buf).Whole? ==> AllBounded(buf[Decode(buf).n..]))
  }

  lemma SizesStable(a: seq<u8>, b: seq<u8>)
    requires Sizes(a).Some?
    ensures Sizes(a + b) == Sizes(a)
  {
    hide Big;
    var e := Extra(a[1]);
    assert (a + b)[2..2 + e] == a[2..2 + e];
  }

  /** A complete frame is not changed by what comes after it. */
  lemma Stable(a: seq<u8>, b: seq<u8>)
    requires Decode(a).Whole?
    ensures Decode(a + b) == Decode(a)
  {
    hide Masked, Big;
    var (hdr, n) := Sizes(a).value;
    assert hdr >= 2 + MaskLen(a[1]);
    hide Sizes;
    SizesStable(a, b);
    assert (a + b)[hdr..hdr + n] == a[hdr..hdr + n];
    if a[1] >= 0x80 { assert (a + b)[hdr - 4..hdr] == a[hdr - 4..hdr]; }
  }

  /** Parsing early and keeping the rest gives the same frames as parsing late, and never
      comes to a header the other way does not. */
  lemma {:induction false} EarlyOrLate(a: seq<u8>, b: seq<u8>)
    requires AllBounded(a + b)
    ensures var (fs, left) := DecodeAll(a);
            var (gs, last) := DecodeAll(left + b);
      DecodeAll(a + b) == (fs + gs, last) && AllBounded(a) && AllBounded(left + b)
    decreases |a|
  {
    hide Decode, Bounded;
    if Sizes(a).Some? { SizesStable(a, b); }
    assert Bounded(a) by { BoundedEarly(a, b); }
    if Decode(a).Whole? {
      var n := Decode(a).n;
      Stable(a, b);
      assert (a + b)[n..] == a[n..] + b;
      EarlyOrLate(a[n..], b);
      var (fs, left) := DecodeAll(a[n..]);
      var (gs, last) := DecodeAll(left + b);
      assert [Decode(a).frame] + (fs + gs) == ([Decode(a).frame] + fs) + gs;
    } else {
      BoundedIsInside(a);
      var (gs, last) := DecodeAll(a + b);
      assert [] + gs == gs;
    }
  }

  lemma BoundedEarly(a: seq<u8>, b: seq<u8>)
    requires Bounded(a + b)
    ensures Bounded(a)
  {
    if Sizes(a).Some? { SizesStable(a, b); }
    hide Sizes;
  }

  /** What a receiver has after some chunks: the frames so far and the unparsed bytes. */
  function Receive(chunks: seq<seq<u8>>): (seq<Frame>, seq<u8>) {
    if chunks == [] then ([], [])
    else
      var (fs, left) := Receive(chunks[..|chunks| - 1]);
      var (gs, last) := DecodeAll(left + chunks[|chunks| - 1]);
      (fs + gs, last)
  }

  /** Any chunking of a stream decodes as the whole stream does, as long as every header in
      it declares a length that fits. */
  lemma {:induction false} ChunkingIrrelevant(chunks: seq<seq<u8>>)
    requires AllBounded(Flatten(chunks))
    ensures Receive(chunks) == DecodeAll(Flatten(chunks))
  {
    if chunks != [] {
      EarlyOrLate(Flatten(chunks[..|chunks| - 1]), chunks[|chunks| - 1]);
      ChunkingIrrelevant(chunks[..|chunks| - 1]);
    }
  }

  datatype Message = Message(opcode: nat, payload: seq<u8>, mask: Mask)

  function EncodeAll(ms: seq<Message>): seq<u8> {
    if ms == [] then [] else Encode(ms[0].opcode, ms[0].payload, ms[0].mask) + EncodeAll(ms[1..])
  }

  function Frames(ms: seq<Message>): seq<Frame> {
    if ms == [] then [] else [Frame(true, ms[0].opcode % 0x10, ms[0].payload)] + Frames(ms[1..])
  }

  lemma {:induction false} DecodesAll(ms: seq<Message>)
    requires forall i :: 0 <= i < |ms| ==> |ms[i].payload| + 14 < TWO64
    ensures DecodeAll(EncodeAll(ms)) == (Frames(ms), []) && AllBounded(EncodeAll(ms))
  {
    if ms != [] {
      var e, rest := Encode(ms[0].opcode, ms[0].payload, ms[0].mask), EncodeAll(ms[1..]);
      RoundTrip(ms[0].opcode, ms[0].payload, ms[0].mask, rest);
      EncodedBounded(ms[0].opcode, ms[0].payload, ms[0].mask, rest);
      assert (e + rest)[|e|..] == rest;
      hide Decode, Encode, Bounded;
      DecodesAll(ms[1..]);
    }
  }

  lemma EncodedBounded(opcode: nat, payload: seq<u8>, mask: Mask, rest: seq<u8>)
    requires |payload| + 14 < TWO64
    ensures Bounded(Encode(opcode, payload, mask) + rest)
  {
    HeadSize(|payload|);
    var head, body := Head(opcode, |payload|, mask), Body(payload, mask);
    assert Encode(opcode, payload, mask) + rest == head + (body + rest);
    SizesEncoded(opcode, payload, mask, 0, body + rest);
    hide Sizes, LengthBytes, Body;
  }

  /** However a stream of built frames is cut up, the receiver gets exactly those frames. */
  lemma AnyChunking(ms: seq<Message>, chunks: seq<seq<u8>>)
    requires forall i :: 0 <= i < |ms| ==> |ms[i].payload| + 14 < TWO64
    requires Flatten(chunks) == EncodeAll(ms)
    ensures Receive(chunks) == (Frames(ms), [])
  {
    DecodesAll(ms);
    ChunkingIrrelevant(chunks);
  }

  // ----- in place -----

  /** nc_ws_frame_parse: while the frame is incomplete `n` is 0 and the buffer untouched; a
      complete frame has its payload unmasked where it lies; and when header and declared
      length wrap, the payload reported reaches past the bytes received, and unmasking it
      has run over everything behind the header. */
  method Parse(buf: array<u8>, len: nat) returns (n: nat, fin: bool, opcode: nat, at: nat, size: nat)
    requires len <= buf.Length < TWO64
    modifies buf
    ensures Decode(old(buf[..len])).Waiting? ==> n == 0 && buf[..] == old(buf[..])
    ensures Decode(old(buf[..len])).Whole? ==>
      var Whole(f, k) := Decode(old(buf[..len]));
      && n == k == at + size <= len && fin == f.fin && opcode == f.opcode && buf[at..n] == f.payload
      && buf[..at] == old(buf[..at]) && buf[n..] == old(buf[n..])
    ensures Decode(old(buf[..len])).Overrun? ==>
      var Overrun(declared, k) := Decode(old(buf[..len]));
      && n == k < at + size && size == declared && at + size > len
      && (at <= buf.Length ==> buf[..at] == old(buf[..at]))
  {
    hide Masked, Sizes;
    n, fin, opcode, at, size := 0, false, 0, 0, 0;
    var known, hdr, plen := ParseHead(buf, len);
    if !known || len < Wrap64(hdr + plen) { return; }
    SizesBound(buf[..len]);
    opcode := buf[0] % 0x10;
    fin := buf[0] >= 0x80;
    at := hdr;
    n := Wrap64(hdr + plen);
    size := plen;
    if hdr + plen <= len {
      ghost var data := buf[..len][hdr..hdr + plen];
      assert data == buf[hdr..hdr + plen];
      if buf[1] >= 0x80 {
        assert buf[..len][hdr - 4..hdr] == buf[hdr - 4..hdr];
        Unmask(buf, hdr, plen);
      }
    } else if buf[1] >= 0x80 && hdr <= buf.Length {
      Unmask(buf, hdr, buf.Length - hdr);
    }
  }

  /** The header: its size and the payload length, once enough bytes are there. */
  method ParseHead(buf: array<u8>, len: nat) returns (known: bool, hdr: nat, plen: nat)
    requires len <= buf.Length
    ensures known <==> Sizes(buf[..len]).Some?
    ensures known ==> len >= 2 && Sizes(buf[..len]) == Some((hdr, plen)) && hdr >= 2 + MaskLen(buf[1])
  {
    hide Big;
    known, hdr, plen := false, 2, 0;
    if len < 2 { return; }
    plen := buf[1] % 0x80;
    if plen == 126 {
      if len < 4 { return; }
      plen := ReadBig(buf, 2, 2);
      assert buf[..len][2..4] == buf[2..4];
      hdr := 4;
    } else if plen == 127 {
      if len < 10 { return; }
      plen := ReadBig(buf, 2, 8);
      assert buf[..len][2..10] == buf[2..10];
      hdr := 10;
    }
    if buf[1] >= 0x80 { hdr := hdr + 4; }
    known := true;
  }

  method ReadBig(buf: array<u8>, from: nat, k: nat) returns (v: nat)
    requires from + k <= buf.Length
    ensures v == Big(buf[from..from + k])
  {
    v := 0;
    for i := 0 to k
      invariant v == Big(buf[from..from + i])
    {
      v := v * 0x100 + buf[from + i];
      assert buf[from..from + i + 1] == buf[from..from + i] + [buf[from + i]];
    }
  }

  /** Unmask `n` bytes at `at` with the four bytes before them. */
  method Unmask(buf: array<u8>, at: nat, n: nat)
    requires 4 <= at && at + n <= buf.Length
    modifies buf
    ensures buf[at..at + n] == Masked(old(buf[at..at + n]), old(buf[at - 4..at]))
    ensures buf[..at] == old(buf[..at]) && buf[at + n..] == old(buf[at + n..])
  {
    hide Xor;
    for i := 0 to n
      invariant forall k :: 0 <= k < i ==> buf[at + k] == Xor(old(buf[at + k]), old(buf[at - 4 + k % 4]))
      invariant forall k :: at + i <= k < buf.Length ==> buf[k] == old(buf[k])
      invariant forall k :: 0 <= k < at ==> buf[k] == old(buf[k])
    {
      buf[at + i] := Xor(buf[at + i], buf[at - 4 + i % 4]);
    }
  }

  /** nc_ws_frame_build: nothing when the frame does not fit. */
  method Build(out: array<u8>, cap: nat, opcode: nat, payload: seq<u8>, mask: Mask) returns (n: nat)
    requires cap <= out.Length && |payload| + 14 < 0x1_0000_0000_0000_0000
    modifies out
    ensures var e := Encode(opcode, payload, mask);
      if cap < |e| then n == 0 && out[..] == old(out[..])
      else n == |e| && out[..n] == e && out[n..] == old(out[n..])
  {
    hide LengthBytes, Body, BigBytes, LengthCode;
    HeadSize(|payload|);
    var hdr := 2;
    if |payload| > 0xffff { hdr := hdr + 8; } else if |payload| >= 126 { hdr := hdr + 2; }
    if mask != [] { hdr := hdr + 4; }
    if cap < hdr + |payload| { return 0; }
    ghost var was := out[..];
    WriteHead(out, opcode, |payload|, mask);
    n := hdr + |payload|;
    assert out[n..] == out[hdr..][|payload|..] && was[n..] == was[hdr..][|payload|..];
    WriteBody(out, hdr, payload, mask);
    assert out[..n] == out[..hdr] + out[hdr..n];
  }

  lemma HeadSize(n: nat)
    ensures |LengthBytes(n)| == if n > 0xffff then 8 else if n >= 126 then 2 else 0
  {}

  method WriteHead(out: array<u8>, opcode: nat, n: nat, mask: Mask)
    requires |Head(opcode, n, mask)| <= out.Length
    modifies out
    ensures var h := Head(opcode, n, mask); out[..|h|] == h && out[|h|..] == old(out[|h|..])
  {
    hide BigBytes, LengthBytes, LengthCode;
    out[0] := 0x80 + opcode % 0x10;
    var o := WriteLength(out, n, if mask != [] then 0x80 else 0);
    CopyAt(out, o, mask);
    assert out[..o + |mask|] == out[..o] + mask;
  }

  /** The length code beside the mask bit, and the length bytes if there are any. */
  method WriteLength(out: array<u8>, n: nat, mbit: u8) returns (o: nat)
    requires 2 + |LengthBytes(n)| <= out.Length && mbit <= 0x80
    modifies out
    ensures o == 2 + |LengthBytes(n)|
    ensures out[..o] == [old(out[0]), mbit + LengthCode(n)] + LengthBytes(n) && out[o..] == old(out[o..])
  {
    hide BigBytes;
    if n > 0xffff {
      out[1] := mbit + 127;
      WriteBig(out, 2, n, 8);
      o := 10;
    } else if n >= 126 {
      out[1] := mbit + 126;
      WriteBig(out, 2, n, 2);
      o := 4;
    } else {
      out[1] := mbit + n;
      o := 2;
    }
    assert out[..o] == [out[0], out[1]] + out[2..o];
  }

  /** The bytes of `n`, most significant first. */
  method WriteBig(out: array<u8>, at: nat, n: nat, k: nat)
    requires at + k <= out.Length
    modifies out
    ensures out[at..at + k] == BigBytes(n, k)
    ensures out[..at] == old(out[..at]) && out[at + k..] == old(out[at + k..])
  {
    hide ByteOf, BigBytes;
    ghost var b := BigBytes(n, k);
    for i := 0 to k
      invariant out[at..at + i] == b[..i]
      invariant out[..at] == old(out[..at]) && out[at + i..] == old(out[at + i..])
    {
      out[at + i] := ByteOf(n, k - 1 - i);
      BigByteAt(n, k, i);
      assert out[at..at + i + 1] == out[at..at + i] + [b[i]];
      assert out[at + i + 1..] == old(out[at + i..])[1..];
    }
  }

  method CopyAt(out: array<u8>, at: nat, data: seq<u8>)
    requires at + |data| <= out.Length
    modifies out
    ensures out[at..at + |data|] == data
    ensures out[..at] == old(out[..at]) && out[at + |data|..] == old(out[at + |data|..])
  {
    for i := 0 to |data|
      invariant forall j :: 0 <= j < i ==> out[at + j] == data[j]
      invariant forall j :: at + i <= j < out.Length ==> out[j] == old(out[j])
      invariant forall j :: 0 <= j < at ==> out[j] == old(out[j])
    {
      out[at + i] := data[i];
    }
  }

  method WriteBody(out: array<u8>, at: nat, payload: seq<u8>, mask: Mask)
    requires at + |payload| <= out.Length
    modifies out
    ensures out[at..at + |payload|] == Body(payload, mask)
    ensures out[..at] == old(out[..at]) && out[at + |payload|..] == old(out[at + |payload|..])
  {
    if mask == [] {
      CopyAt(out, at, payload);
    } else {
      WriteMasked(out, at, payload, mask);
    }
  }

  method WriteMasked(out: array<u8>, at: nat, payload: seq<u8>, mask: Mask)
    requires at + |payload| <= out.Length && mask != []
    modifies out
    ensures out[at..at + |payload|] == Masked(payload, mask)
    ensures out[..at] == old(out[..at]) && out[at + |payload|..] == old(out[at + |payload|..])
  {
    hide Xor;
    for i := 0 to |payload|
      invariant forall j :: 0 <= j < i ==> out[at + j] == Xor(payload[j], mask[j % 4])
      invariant forall j :: at + i <= j < out.Length ==> out[j] == old(out[j])
      invariant forall j :: 0 <= j < at ==> out[j] == old(out[j])
    {
      out[at + i] := Xor(payload[i], mask[i % 4]);
    }
  }
}
