/** What the functions of Sha1Spec compute: their bits, their constants, and the first test of
    section 7.3 of RFC 3174. */
module Sha1Meaning {
  import opened Bytes
  import opened Sha1Spec

  /** Bit `i` of a word, counted from the least significant. */
  predicate Bit(v: bv32, i: bv5) { (v >> (i as bv6)) & 1 == 1 }

  function Ones(a: bool, b: bool, c: bool): nat { (if a then 1 else 0) + (if b then 1 else 0) + if c then 1 else 0 }

  /** Rounds 0 to 19 take each bit from c or d as b says, 40 to 59 the value at least two of the
      three share, the others the parity. */
  lemma ChooseBits(t: nat, b: bv32, c: bv32, d: bv32, i: bv5)
    ensures var f := Bit(Choose(t, b, c, d), i);
            var x, y, z := Bit(b, i), Bit(c, i), Bit(d, i);
      if t < 20 then f == if x then y else z
      else if 40 <= t < 60 then f == (Ones(x, y, z) >= 2)
      else f == (Ones(x, y, z) % 2 == 1)
  {
    hide Select, Parity, Majority, Bit;
    Selects(b, c, d, i);
    Agrees(b, c, d, i);
    Differs(b, c, d, i);
  }

  lemma Selects(b: bv32, c: bv32, d: bv32, i: bv5)
    ensures Bit(Select(b, c, d), i) == if Bit(b, i) then Bit(c, i) else Bit(d, i)
  {
    SelectBits(b, c, d, i);
    hide Bit;
  }

  lemma SelectBits(b: bv32, c: bv32, d: bv32, i: bv5)
    ensures Bit((b & c) | (!b & d), i) == if Bit(b, i) then Bit(c, i) else Bit(d, i)
  {}

  lemma Agrees(b: bv32, c: bv32, d: bv32, i: bv5)
    ensures Bit(Majority(b, c, d), i)
         == ((Bit(b, i) && Bit(c, i)) || (Bit(b, i) && Bit(d, i)) || (Bit(c, i) && Bit(d, i)))
  {
    MajorityBits(b, c, d, i);
    hide Bit;
  }

  lemma MajorityBits(b: bv32, c: bv32, d: bv32, i: bv5)
    ensures Bit((b & c) | (b & d) | (c & d), i)
         == ((Bit(b, i) && Bit(c, i)) || (Bit(b, i) && Bit(d, i)) || (Bit(c, i) && Bit(d, i)))
  {}

  lemma Differs(b: bv32, c: bv32, d: bv32, i: bv5)
    ensures Bit(Parity(b, c, d), i) == ((Bit(b, i) != Bit(c, i)) != Bit(d, i))
  {
    ParityBits(b, c, d, i);
    hide Bit;
  }

  lemma ParityBits(b: bv32, c: bv32, d: bv32, i: bv5)
    ensures Bit(b ^ c ^ d, i) == ((Bit(b, i) != Bit(c, i)) != Bit(d, i))
  {}

  /** Rotating left by n moves bit (i - n) modulo 32 to bit i. */
  lemma RotateBits(v: bv32, i: bv5)
    ensures Bit(Rol1(v), i) == Bit(v, i - 1) && Bit(Rol5(v), i) == Bit(v, i - 5) && Bit(Rol30(v), i) == Bit(v, i - 30)
  {
    ByOne(v, i);
    ByFive(v, i);
    ByThirty(v, i);
    hide Bit, Rol1, Rol5, Rol30;
  }

  lemma ByOne(v: bv32, i: bv5)
    ensures Bit(Rol1(v), i) == Bit(v, i - 1)
  {}

  lemma ByFive(v: bv32, i: bv5)
    ensures Bit(Rol5(v), i) == Bit(v, i - 5)
  {}

  lemma ByThirty(v: bv32, i: bv5)
    ensures Bit(Rol30(v), i) == Bit(v, i - 30)
  {}

  /** A word of the schedule: each bit is the parity of the bits below it in the four words. */
  lemma MixedBits(x: bv32, y: bv32, z: bv32, u: bv32, i: bv5)
    ensures var j := i - 1;
      Bit(Mixed(x, y, z, u), i) == (((Bit(x, j) != Bit(y, j)) != Bit(z, j)) != Bit(u, j))
  {
    ByOne(x ^ y ^ z ^ u, i);
    FourWay(x, y, z, u, i - 1);
    hide Rol1, Bit;
  }

  lemma FourWay(x: bv32, y: bv32, z: bv32, u: bv32, j: bv5)
    ensures Bit(x ^ y ^ z ^ u, j) == (((Bit(x, j) != Bit(y, j)) != Bit(z, j)) != Bit(u, j))
  {}

  /** The constant of a round is the square root of 2, 3, 5 or 10, times 2^30, rounded down. */
  lemma ConstantRoots(t: nat)
    ensures var k := Constant(t) as int;
            var n := if t < 20 then 2 else if t < 40 then 3 else if t < 60 then 5 else 10;
      k * k <= n * 0x1000_0000_0000_0000 < (k + 1) * (k + 1)
  {}

  // ----- rounds with a window of sixteen words -----

  datatype Window = Window(w0: bv32, w1: bv32, w2: bv32, w3: bv32, w4: bv32, w5: bv32, w6: bv32, w7: bv32,
                           w8: bv32, w9: bv32, w10: bv32, w11: bv32, w12: bv32, w13: bv32, w14: bv32, w15: bv32)

  function Slide(q: Window): Window {
    Window(q.w1, q.w2, q.w3, q.w4, q.w5, q.w6, q.w7, q.w8,
           q.w9, q.w10, q.w11, q.w12, q.w13, q.w14, q.w15, Mixed(q.w13, q.w8, q.w2, q.w0))
  }

  datatype Both = Both(s: State, q: Window)

  function Turn(x: Both, t: nat): Both { Both(Round(x.s, t, x.q.w0), Slide(x.q)) }

  /** `n` rounds from round `t` on. */
  function Turns(x: Both, t: nat, n: nat): Both
    decreases n
  {
    if n == 0 then x else Turns(Turn(x, t), t + 1, n - 1)
  }

  lemma {:induction false} TurnsOn(x: Both, t: nat, n: nat, k: nat)
    ensures Turns(x, t, n + k) == Turns(Turns(x, t, n), t + n, k)
    decreases n
  {
    hide Turn;
    if n > 0 { TurnsOn(Turn(x, t), t + 1, n - 1, k); }
  }

  function WindowAt(w: seq<bv32>, t: nat): Window
    requires t + 16 <= |w|
  {
    Window(w[t], w[t + 1], w[t + 2], w[t + 3], w[t + 4], w[t + 5], w[t + 6], w[t + 7],
           w[t + 8], w[t + 9], w[t + 10], w[t + 11], w[t + 12], w[t + 13], w[t + 14], w[t + 15])
  }

  lemma {:induction false} ScheduleStarts(block: seq<u8>, n: nat, k: nat)
    requires |block| == 64 && k <= n
    ensures Schedule(block, n)[..k] == Schedule(block, k)
    decreases n
  {
    hide Word, Mixed;
    if k < n { ScheduleStarts(block, n - 1, k); }
  }

  lemma WindowSlides(block: seq<u8>, t: nat)
    requires |block| == 64
    ensures Slide(WindowAt(Schedule(block, t + 16), t)) == WindowAt(Schedule(block, t + 17), t + 1)
  {
    hide Word, Mixed;
    ScheduleStarts(block, t + 17, t + 16);
  }

  /** The window goes through the same rounds as the whole schedule. */
  lemma {:induction false} TurnsAreRounds(s: State, block: seq<u8>, n: nat)
    requires |block| == 64
    ensures Turns(Both(s, WindowAt(Schedule(block, 16), 0)), 0, n)
         == Both(Rounds(s, Schedule(block, n), n), WindowAt(Schedule(block, n + 16), n))
  {
    hide Round, Schedule, Mixed, WindowAt;
    if n > 0 {
      TurnsAreRounds(s, block, n - 1);
      var x := Both(s, WindowAt(Schedule(block, 16), 0));
      TurnsOn(x, 0, n - 1, 1);
      var y := Turns(x, 0, n - 1);
      assert Turns(y, n - 1, 1) == Turn(y, n - 1);
      WindowSlides(block, n - 1);
      FirstWord(block, n - 1);
      ScheduleStarts(block, n, n - 1);
      RoundsStart(s, Schedule(block, n), Schedule(block, n - 1), n - 1);
    }
  }

  lemma FirstWord(block: seq<u8>, t: nat)
    requires |block| == 64
    ensures WindowAt(Schedule(block, t + 16), t).w0 == Schedule(block, t + 1)[t]
  {
    ScheduleStarts(block, t + 16, t + 1);
    hide Schedule;
  }

  lemma {:induction false} RoundsStart(s: State, w: seq<bv32>, v: seq<bv32>, n: nat)
    requires n <= |v| <= |w| && w[..|v|] == v
    ensures Rounds(s, w, n) == Rounds(s, v, n)
  {
    hide Round;
    if n > 0 {
      RoundsStart(s, w, v, n - 1);
      assert w[..|v|][n - 1] == w[n - 1];
    }
  }

  // ----- "abc" -----

  const ABC: seq<u8> := [0x61, 0x62, 0x63]

  /** State and window before rounds 0, 2 and 6 and every fourth one. */
  const AT0 := Both(State(0x67452301, 0xefcdab89, 0x98badcfe, 0x10325476, 0xc3d2e1f0),
              Window(0x61626380, 0x00000000, 0x00000000, 0x00000000, 0x00000000, 0x00000000, 0x00000000, 0x00000000,
                     0x00000000, 0x00000000, 0x00000000, 0x00000000, 0x00000000, 0x00000000, 0x00000000, 0x00000018))
  const AT2 := Both(State(0x8990536d, 0x0116fc33, 0x59d148c0, 0x7bf36ae2, 0x98badcfe),
              Window(0x00000000, 0x00000000, 0x00000000, 0x00000000, 0x00000000, 0x00000000, 0x00000000, 0x00000000,
                     0x00000000, 0x00000000, 0x00000000, 0x00000000, 0x00000000, 0x00000018, 0xc2c4c700, 0x00000000))
  const AT4 := Both(State(0xcdd8e11b, 0xa1390f08, 0x626414db, 0xc045bf0c, 0x59d148c0),
              Window(0x00000000, 0x00000000, 0x00000000, 0x00000000, 0x00000000, 0x00000000, 0x00000000, 0x00000000,
                     0x00000000, 0x00000000, 0x00000000, 0x00000018, 0xc2c4c700, 0x00000000, 0x00000030, 0x85898e01))
  const AT6 := Both(State(0x3fc7ca40, 0xcfd499de, 0xf3763846, 0x284e43c2, 0x626414db),
              Window(0x00000000, 0x00000000, 0x00000000, 0x00000000, 0x00000000, 0x00000000, 0x00000000, 0x00000000,
                     0x00000000, 0x00000018, 0xc2c4c700, 0x00000000, 0x00000030, 0x85898e01, 0x00000000, 0x00000060))
  const AT8 := Both(State(0x9e8c07d4, 0x993e30c1, 0x0ff1f290, 0xb3f52677, 0xf3763846),
              Window(0x00000000, 0x00000000, 0x00000000, 0x00000000, 0x00000000, 0x00000000, 0x00000000, 0x00000018,
                     0xc2c4c700, 0x00000000, 0x00000030, 0x85898e01, 0x00000000, 0x00000060, 0x0b131c03, 0x00000030))
  const AT12 := Both(State(0x63188fe4, 0xfbda9e89, 0x60d47e4a, 0x12dab8ca, 0x27a301f5),
               Window(0x00000000, 0x00000000, 0x00000000, 0x00000018, 0xc2c4c700, 0x00000000, 0x00000030, 0x85898e01,
                      0x00000000, 0x00000060, 0x0b131c03, 0x00000030, 0x85898ec1, 0x16263806, 0x00000000, 0x00000180))
  const AT16 := Both(State(0x20bdd62f, 0x196bee77, 0x644a3da5, 0x1181ed99, 0x18c623f9),
               Window(0xc2c4c700, 0x00000000, 0x00000030, 0x85898e01, 0x00000000, 0x00000060, 0x0b131c03, 0x00000030,
                      0x85898ec1, 0x16263806, 0x00000000, 0x00000180, 0x2c4c700c, 0x000000f0, 0x93afb507, 0x5898e048))
  const AT20 := Both(State(0xfd9e1d7d, 0xdc64901d, 0x20aa99ca, 0xd3a49608, 0xc82f758b),
               Window(0x00000000, 0x00000060, 0x0b131c03, 0x00000030, 0x85898ec1, 0x16263806, 0x00000000, 0x00000180,
                      0x2c4c700c, 0x000000f0, 0x93afb507, 0x5898e048, 0x8e9a9202, 0x00000600, 0xb131c0f0, 0x16263bc6))
  const AT24 := Both(State(0xd541f12d, 0x21283486, 0x0ce88eff, 0x868dec32, 0x7f67875f),
               Window(0x85898ec1, 0x16263806, 0x00000000, 0x00000180, 0x2c4c700c, 0x000000f0, 0x93afb507, 0x5898e048,
                      0x8e9a9202, 0x00000600, 0xb131c0f0, 0x16263bc6, 0x4ebed41e, 0x626380a1, 0x16263806, 0x000018c0))
  const AT28 := Both(State(0x4aa84d97, 0xbe35fbd5, 0x12104ee9, 0xb1d59f71, 0x75507c4b),
               Window(0x2c4c700c, 0x000000f0, 0x93afb507, 0x5898e048, 0x8e9a9202, 0x00000600, 0xb131c0f0, 0x16263bc6,
                      0x4ebed41e, 0x626380a1, 0x16263806, 0x000018c0, 0xd2e138c4, 0x00000f00, 0x3afb5079, 0x898e04e5))
  const AT32 := Both(State(0x3b845d33, 0x1267b407, 0x717eebd7, 0xa0dc2d4b, 0xd2aa1365),
               Window(0x8e9a9202, 0x00000600, 0xb131c0f0, 0x16263bc6, 0x4ebed41e, 0x626380a1, 0x16263806, 0x000018c0,
                      0xd2e138c4, 0x00000f00, 0x3afb5079, 0x898e04e5, 0xe2ba3c2b, 0x000060c0, 0x053a37cd, 0x74458547))
  const AT36 := Both(State(0xdcbbb0cb, 0x21796ad4, 0x4b03af04, 0x811bea82, 0xcee1174c),
               Window(0x4ebed41e, 0x626380a1, 0x16263806, 0x000018c0, 0xd2e138c4, 0x00000f00, 0x3afb5079, 0x898e04e5,
                      0xe2ba3c2b, 0x000060c0, 0x053a37cd, 0x74458547, 0xda9415ed, 0x26380a16, 0x626383a1, 0x4ebf54de))
  const AT40 := Both(State(0x32de1cba, 0x4c986405, 0xf718e5cf, 0x03d447f6, 0xf72eec32),
               Window(0xd2e138c4, 0x00000f00, 0x3afb5079, 0x898e04e5, 0xe2ba3c2b, 0x000060c0, 0x053a37cd, 0x74458547,
                      0xda9415ed, 0x26380a16, 0x626383a1, 0x4ebf54de, 0x3835b44b, 0x0000f600, 0x1e84c7a3, 0x98e04d98))
  const AT44 := Both(State(0xee1b1aaf, 0x7f193dc5, 0x25c28357, 0xff21f7b7, 0x8cb7872e),
               Window(0xe2ba3c2b, 0x000060c0, 0x053a37cd, 0x74458547, 0xda9415ed, 0x26380a16, 0x626383a1, 0x4ebf54de,
                      0x3835b44b, 0x0000f600, 0x1e84c7a3, 0x98e04d98, 0x651d16a0, 0x62658ca1, 0x458544d6, 0x44584cb7))
  const AT48 := Both(State(0xbead02ca, 0xa01b846c, 0x8714787c, 0x503ca382, 0xfb86c6ab),
               Window(0xda9415ed, 0x26380a16, 0x626383a1, 0x4ebf54de, 0x3835b44b, 0x0000f600, 0x1e84c7a3, 0x98e04d98,
                      0x651d16a0, 0x62658ca1, 0x458544d6, 0x44584cb7, 0x7ba06619, 0x6380aea2, 0x0ae55269, 0x627b49a1))
  const AT52 := Both(State(0x3847ad66, 0x641db2ce, 0x4481cc71, 0xeebce4cd, 0xafab40b2),
               Window(0x3835b44b, 0x0000f600, 0x1e84c7a3, 0x98e04d98, 0x651d16a0, 0x62658ca1, 0x458544d6, 0x44584cb7,
                      0x7ba06619, 0x6380aea2, 0x0ae55269, 0x627b49a1, 0x7cd45c9d, 0x000f0000, 0xfb50753a, 0xec6765e8))
  const AT56 := Both(State(0x5e6456af, 0x7b71f76d, 0x09fa7c76, 0x792410db, 0x8e11eb59),
               Window(0x651d16a0, 0x62658ca1, 0x458544d6, 0x44584cb7, 0x7ba06619, 0x6380aea2, 0x0ae55269, 0x627b49a1,
                      0x7cd45c9d, 0x000f0000, 0xfb50753a, 0xec6765e8, 0xba3c2be2, 0x0060c000, 0x3a37cd05, 0x458546f4))
  const AT60 := Both(State(0x3f52de5a, 0x09d785fd, 0x3498bfd4, 0xf211824f, 0xd79915ab),
               Window(0x7ba06619, 0x6380aea2, 0x0ae55269, 0x627b49a1, 0x7cd45c9d, 0x000f0000, 0xfb50753a, 0xec6765e8,
                      0xba3c2be2, 0x0060c000, 0x3a37cd05, 0x458546f4, 0xb8599dd6, 0x380a1a26, 0x01e02203, 0xe7cc3456))
  const AT64 := Both(State(0x6b61c9e1, 0xb66c020b, 0x9523272c, 0xf5d5b051, 0x8fd4b796),
               Window(0x7cd45c9d, 0x000f0000, 0xfb50753a, 0xec6765e8, 0xba3c2be2, 0x0060c000, 0x3a37cd05, 0x458546f4,
                      0xb8599dd6, 0x380a1a26, 0x01e02203, 0xe7cc3456, 0xe6e60b69, 0x00f60a00, 0x5795ef4f, 0x822e0879))
  const AT68 := Both(State(0x78dd4d2b, 0x0c3df2b4, 0x4405957e, 0x0677e9eb, 0x5ad87278),
               Window(0xba3c2be2, 0x0060c000, 0x3a37cd05, 0x458546f4, 0xb8599dd6, 0x380a1a26, 0x01e02203, 0xe7cc3456,
                      0xe6e60b69, 0x00f60a00, 0x5795ef4f, 0x822e0879, 0x7e577ce2, 0x07ef2103, 0x8544e945, 0xeb39dab8))
  const AT72 := Both(State(0x39859de7, 0xc199f8c7, 0x8fc96230, 0x125c24f0, 0xde37534a),
               Window(0xb8599dd6, 0x380a1a26, 0x01e02203, 0xe7cc3456, 0xe6e60b69, 0x00f60a00, 0x5795ef4f, 0x822e0879,
                      0x7e577ce2, 0x07ef2103, 0x8544e945, 0xeb39dab8, 0xc205991a, 0x80aecb63, 0x7d84ca48, 0x7b499b62))
  const AT76 := Both(State(0x63f7dab7, 0x5ee76897, 0xc45e4fdb, 0x3b6d0b79, 0xce616779),
               Window(0xe6e60b69, 0x00f60a00, 0x5795ef4f, 0x822e0879, 0x7e577ce2, 0x07ef2103, 0x8544e945, 0xeb39dab8,
                      0xc205991a, 0x80aecb63, 0x7d84ca48, 0x7b499b62, 0x8e8010a8, 0x4b5b8a77, 0x3216b69a, 0x0507e88d))
  const AT80 := Both(State(0x42541b35, 0x5738d5e1, 0x21834873, 0x681e6df6, 0xd8fdf6ad),
               Window(0x7e577ce2, 0x07ef2103, 0x8544e945, 0xeb39dab8, 0xc205991a, 0x80aecb63, 0x7d84ca48, 0x7b499b62,
                      0x8e8010a8, 0x4b5b8a77, 0x3216b69a, 0x0507e88d, 0x705bee96, 0x60c0ff00, 0xa28362d0, 0x1da6b91d))

  lemma To2()
    ensures Turns(AT0, 0, 2) == AT2
  {}

  lemma To4()
    ensures Turns(AT2, 2, 2) == AT4
  {}

  lemma To6()
    ensures Turns(AT4, 4, 2) == AT6
  {}

  lemma To8()
    ensures Turns(AT6, 6, 2) == AT8
  {}

  lemma To12()
    ensures Turns(AT8, 8, 4) == AT12
  {}

  lemma To16()
    ensures Turns(AT12, 12, 4) == AT16
  {}

  lemma To20()
    ensures Turns(AT16, 16, 4) == AT20
  {}

  lemma To24()
    ensures Turns(AT20, 20, 4) == AT24
  {}

  lemma To28()
    ensures Turns(AT24, 24, 4) == AT28
  {}

  lemma To32()
    ensures Turns(AT28, 28, 4) == AT32
  {}

  lemma To36()
    ensures Turns(AT32, 32, 4) == AT36
  {}

  lemma To40()
    ensures Turns(AT36, 36, 4) == AT40
  {}

  lemma To44()
    ensures Turns(AT40, 40, 4) == AT44
  {}

  lemma To48()
    ensures Turns(AT44, 44, 4) == AT48
  {}

  lemma To52()
    ensures Turns(AT48, 48, 4) == AT52
  {}

  lemma To56()
    ensures Turns(AT52, 52, 4) == AT56
  {}

  lemma To60()
    ensures Turns(AT56, 56, 4) == AT60
  {}

  lemma To64()
    ensures Turns(AT60, 60, 4) == AT64
  {}

  lemma To68()
    ensures Turns(AT64, 64, 4) == AT68
  {}

  lemma To72()
    ensures Turns(AT68, 68, 4) == AT72
  {}

  lemma To76()
    ensures Turns(AT72, 72, 4) == AT76
  {}

  lemma To80()
    ensures Turns(AT76, 76, 4) == AT80
  {}

  lemma AbcRounds()
    ensures Turns(AT0, 0, 80) == AT80
  {
    hide Turns;
    To2();
    To4();
    To6();
    To8();
    To12();
    To16();
    To20();
    To24();
    To28();
    To32();
    To36();
    To40();
    To44();
    To48();
    To52();
    To56();
    To60();
    To64();
    To68();
    To72();
    To76();
    To80();
    TurnsOn(AT0, 0, 2, 2);
    TurnsOn(AT0, 0, 4, 2);
    TurnsOn(AT0, 0, 6, 2);
    TurnsOn(AT0, 0, 8, 4);
    TurnsOn(AT0, 0, 12, 4);
    TurnsOn(AT0, 0, 16, 4);
    TurnsOn(AT0, 0, 20, 4);
    TurnsOn(AT0, 0, 24, 4);
    TurnsOn(AT0, 0, 28, 4);
    TurnsOn(AT0, 0, 32, 4);
    TurnsOn(AT0, 0, 36, 4);
    TurnsOn(AT0, 0, 40, 4);
    TurnsOn(AT0, 0, 44, 4);
    TurnsOn(AT0, 0, 48, 4);
    TurnsOn(AT0, 0, 52, 4);
    TurnsOn(AT0, 0, 56, 4);
    TurnsOn(AT0, 0, 60, 4);
    TurnsOn(AT0, 0, 64, 4);
    TurnsOn(AT0, 0, 68, 4);
    TurnsOn(AT0, 0, 72, 4);
    TurnsOn(AT0, 0, 76, 4);
  }

  lemma AbcPadded()
    ensures Pad(ABC) == ABC + [0x80] + Zeros(59) + [24] && |Pad(ABC)| == 64
  {
    var f := LengthField(24);
    assert f[7] == 24 && forall k :: 0 <= k < 7 ==> f[k] == 0 by { LengthOf24(); }
    assert f == Zeros(7) + [24];
    assert Zeros(52) + Zeros(7) == Zeros(59);
    hide LengthField;
  }

  lemma LengthOf24()
    ensures LengthByte(24, 7) == 24 && forall k :: 0 <= k < 7 ==> LengthByte(24, k) == 0
  {
    forall k | 0 <= k < 7 ensures LengthByte(24, k) == 0 { ShiftedOut(56 - 8 * k); }
    assert LengthByte(24, 7) == Low(Shr(24, 0));
  }

  lemma ShiftedOut(n: nat)
    requires n >= 8
    ensures Shr(24, n) == 0
  {
    assert Shr(24, n) == Shr(12, n - 1) == Shr(6, n - 2) == Shr(3, n - 3) == Shr(1, n - 4) == Shr(0, n - 5);
    ZeroShifted(n - 5);
  }

  lemma {:induction false} ZeroShifted(n: nat)
    ensures Shr(0, n) == 0
  {
    if n > 0 { ZeroShifted(n - 1); }
  }

  lemma {:induction false} ScheduleWord(block: seq<u8>, n: nat, t: nat)
    requires |block| == 64 && t < n <= 16
    ensures Schedule(block, n)[t] == Word(block[4 * t], block[4 * t + 1], block[4 * t + 2], block[4 * t + 3])
  {
    hide Word;
    if t < n - 1 { ScheduleWord(block, n - 1, t); }
  }

  lemma AbcWords()
    ensures Word(0x61, 0x62, 0x63, 0x80) == 0x61626380 && Word(0, 0, 0, 0) == 0 && Word(0, 0, 0, 24) == 24
  {}

  lemma AbcWord(t: nat)
    requires t < 16
    ensures |Pad(ABC)| == 64 && Schedule(Pad(ABC), 16)[t] == if t == 0 then 0x61626380 else if t == 15 then 24 else 0
  {
    hide Pad, Word, Schedule;
    AbcPadded();
    AbcWords();
    var block := Pad(ABC);
    ScheduleWord(block, 16, t);
    if t == 0 {
      assert block[0] == 0x61 && block[1] == 0x62 && block[2] == 0x63 && block[3] == 0x80;
    } else {
      assert block[4 * t] == block[4 * t + 1] == block[4 * t + 2] == 0 && block[4 * t + 3] == if t == 15 then 24 else 0;
    }
  }

  lemma AbcWindow()
    ensures |Pad(ABC)| == 64 && AT0 == Both(INITIAL, WindowAt(Schedule(Pad(ABC), 16), 0))
  {
    hide Pad, Schedule;
    forall t | 0 <= t < 16
      ensures |Pad(ABC)| == 64 && Schedule(Pad(ABC), 16)[t] == if t == 0 then 0x61626380 else if t == 15 then 24 else 0
    {
      AbcWord(t);
    }
    AbcPadded();
    var w := Schedule(Pad(ABC), 16);
    assert w[0] == 0x61626380 && w[15] == 24 && forall t :: 1 <= t < 15 ==> w[t] == 0;
    assert WindowAt(w, 0) == AT0.q;
  }

  /** The digest of "abc". */
  lemma DigestOfAbc()
    ensures Digest(ABC) == [0xa9, 0x99, 0x3e, 0x36, 0x47, 0x06, 0x81, 0x6a, 0xba, 0x3e,
                            0x25, 0x71, 0x78, 0x50, 0xc2, 0x6c, 0x9c, 0xd0, 0xd8, 0x9d]
  {
    hide Pad, Schedule, Turns, WindowAt, Rounds;
    var block := Pad(ABC);
    AbcWindow();
    AbcRounds();
    TurnsAreRounds(INITIAL, block, 80);
    assert block[..0] == [] && block[0..64] == block;
    assert Digested(block) == Compress(Digested([]), block);
    AbcOut();
  }

  lemma AbcOut()
    ensures Out(Plus(INITIAL, AT80.s)) == [0xa9, 0x99, 0x3e, 0x36, 0x47, 0x06, 0x81, 0x6a, 0xba, 0x3e,
                                                 0x25, 0x71, 0x78, 0x50, 0xc2, 0x6c, 0x9c, 0xd0, 0xd8, 0x9d]
  {
    hide OutWord, Plus;
    AbcSum();
    AbcBytes();
    var s := Plus(INITIAL, AT80.s);
    assert OutFirst(s, 2) == OutWord(s.a) + OutWord(s.b);
    assert OutFirst(s, 4) == OutFirst(s, 2) + OutWord(s.c) + OutWord(s.d);
  }

  lemma AbcSum()
    ensures Plus(INITIAL, AT80.s) == State(0xa9993e36, 0x4706816a, 0xba3e2571, 0x7850c26c, 0x9cd0d89d)
  {}

  lemma AbcBytes()
    ensures OutWord(0xa9993e36) == [0xa9, 0x99, 0x3e, 0x36] && OutWord(0x4706816a) == [0x47, 0x06, 0x81, 0x6a]
    ensures OutWord(0xba3e2571) == [0xba, 0x3e, 0x25, 0x71] && OutWord(0x7850c26c) == [0x78, 0x50, 0xc2, 0x6c]
    ensures OutWord(0x9cd0d89d) == [0x9c, 0xd0, 0xd8, 0x9d]
  {}
}
