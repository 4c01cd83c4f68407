/** ColdFire integer arithmetic: the condition codes of ADD, SUB, ADDX and SUBX, and
    what they mean after a chain over many 32-bit limbs. */
module CfFlags {
  import opened Bytes

  const WORD := 0x1_0000_0000

  const SR_C: bv32 := 0x01
  const SR_V: bv32 := 0x02
  const SR_Z: bv32 := 0x04
  const SR_N: bv32 := 0x08
  const SR_X: bv32 := 0x10

  predicate Has(sr: bv32, flag: bv32) { sr & flag != 0 }

  /** set_flag. */
  function SetFlag(sr: bv32, flag: bv32, cond: bool): bv32 {
    if cond then sr | flag else sr & !flag
  }

  predicate Msb(v: u32) { v >= 0x8000_0000 }

  function SetNz(sr: bv32, res: u32): bv32 {
    SetFlag(SetFlag(sr, SR_N, Msb(res)), SR_Z, res == 0)
  }

  /** set_flags_add for long operands. */
  function SetFlagsAdd(sr: bv32, src: u32, dst: u32, res: u32): bv32 {
    var sm, dm, rm := Msb(src), Msb(dst), Msb(res);
    var s1 := SetFlag(SetNz(sr, res), SR_V, sm == dm && rm != sm);
    var s2 := SetFlag(s1, SR_C, (sm && dm) || (!rm && (sm || dm)));
    SetFlag(s2, SR_X, Has(s2, SR_C))
  }

  /** set_flags_sub for long operands. */
  function SetFlagsSub(sr: bv32, src: u32, dst: u32, res: u32): bv32 {
    var sm, dm, rm := Msb(src), Msb(dst), Msb(res);
    var s1 := SetFlag(SetNz(sr, res), SR_V, sm != dm && rm == sm);
    var s2 := SetFlag(s1, SR_C, (!dm && sm) || (rm && (!dm || sm)));
    SetFlag(s2, SR_X, Has(s2, SR_C))
  }

  /** Status register and result of one instruction. */
  datatype Out = Out(sr: bv32, res: u32)

  function Wrap(v: int): u32 { v % WORD }

  function AddLong(sr: bv32, src: u32, dst: u32): Out {
    var res := Wrap(dst + src as int);
    Out(SetFlagsAdd(sr, src, dst, res), res)
  }

  function SubLong(sr: bv32, src: u32, dst: u32): Out {
    var res := Wrap((dst as int) - src);
    Out(SetFlagsSub(sr, src, dst, res), res)
  }

  function ExtendBit(sr: bv32): int { if Has(sr, SR_X) then 1 else 0 }

  /** The common flag tail of ADDX and SUBX: Z is only ever cleared. */
  function SetFlagsExtend(sr: bv32, carry: bool, overflow: bool, negative: bool, nonzero: bool): bv32 {
    var s1 := SetFlag(SetFlag(sr, SR_C, carry), SR_X, carry);
    var s2 := SetFlag(SetFlag(s1, SR_V, overflow), SR_N, negative);
    if nonzero then s2 & !SR_Z else s2
  }

  function AddxLong(sr: bv32, src: u32, dst: u32): Out {
    var sum := (dst as int) + src + ExtendBit(sr);
    var res := Wrap(sum);
    Out(SetFlagsExtend(sr, sum >= WORD, Msb(src) == Msb(dst) && Msb(res) != Msb(src), Msb(res), res != 0), res)
  }

  function SubxLong(sr: bv32, src: u32, dst: u32): Out {
    var diff := (dst as int) - src - ExtendBit(sr);
    var res := Wrap(diff);
    Out(SetFlagsExtend(sr, diff < 0, Msb(src) != Msb(dst) && Msb(res) == Msb(src), Msb(res), res != 0), res)
  }

  /** eval_cc. */
  predicate EvalCc(sr: bv32, cc: int) {
    var n, z, v, c := Has(sr, SR_N), Has(sr, SR_Z), Has(sr, SR_V), Has(sr, SR_C);
    match cc % 16
    case 0 => true
    case 1 => false
    case 2 => !c && !z
    case 3 => c || z
    case 4 => !c
    case 5 => c
    case 6 => !z
    case 7 => z
    case 8 => !v
    case 9 => v
    case 10 => !n
    case 11 => n
    case 12 => n == v
    case 13 => n != v
    case 14 => !z && n == v
    case _ => z || n != v
  }

  // ----- one instruction in exact integers -----

  /** The two's complement reading of one limb, and the values it can hold. */
  function Sign(v: u32): int { if Msb(v) then (v as int) - WORD else v }

  predicate InSigned(v: int) { -0x8000_0000 <= v < 0x8000_0000 }

  /** What the flags say about a difference with or without a borrow in: the borrow out, the
      sign and zero of the result, and whether the exact signed difference left 32 bits. */
  predicate SubSays(o: Out, zBefore: bool, src: u32, dst: u32, borrow: int) {
    var c := if Has(o.sr, SR_C) then 1 else 0;
    && o.res == (dst as int) - src - borrow + c * WORD
    && (Has(o.sr, SR_X) <==> Has(o.sr, SR_C))
    && (Has(o.sr, SR_Z) <==> zBefore && o.res == 0)
    && (Has(o.sr, SR_N) <==> Msb(o.res))
    && (Has(o.sr, SR_V) <==> !InSigned(Sign(dst) - Sign(src) - borrow))
  }

  predicate AddSays(o: Out, zBefore: bool, src: u32, dst: u32, carry: int) {
    var c := if Has(o.sr, SR_C) then 1 else 0;
    && o.res == (dst as int) + src + carry - c * WORD
    && (Has(o.sr, SR_X) <==> Has(o.sr, SR_C))
    && (Has(o.sr, SR_Z) <==> zBefore && o.res == 0)
    && (Has(o.sr, SR_N) <==> Msb(o.res))
    && (Has(o.sr, SR_V) <==> !InSigned(Sign(dst) + Sign(src) + carry))
  }

  /** The sign bits tell when the exact result leaves 32 bits. */
  lemma SubOverflow(src: u32, dst: u32, borrow: int)
    requires borrow == 0 || borrow == 1
    ensures var res := Wrap((dst as int) - src - borrow);
      Msb(src) != Msb(dst) && Msb(res) == Msb(src) <==> !InSigned(Sign(dst) - Sign(src) - borrow)
  {}

  lemma AddOverflow(src: u32, dst: u32, carry: int)
    requires carry == 0 || carry == 1
    ensures var res := Wrap((dst as int) + src + carry);
      Msb(src) == Msb(dst) && Msb(res) != Msb(src) <==> !InSigned(Sign(dst) + Sign(src) + carry)
  {}

  lemma SubtractFlags(sr: bv32, src: u32, dst: u32, res: u32)
    ensures var s := SetFlagsSub(sr, src, dst, res);
            var sm, dm, rm := Msb(src), Msb(dst), Msb(res);
            && (Has(s, SR_C) <==> (!dm && sm) || (rm && (!dm || sm)))
            && (Has(s, SR_X) <==> Has(s, SR_C))
            && (Has(s, SR_Z) <==> res == 0) && (Has(s, SR_N) <==> rm)
            && (Has(s, SR_V) <==> sm != dm && rm == sm)
  {}

  lemma AddFlags(sr: bv32, src: u32, dst: u32, res: u32)
    ensures var s := SetFlagsAdd(sr, src, dst, res);
            var sm, dm, rm := Msb(src), Msb(dst), Msb(res);
            && (Has(s, SR_C) <==> (sm && dm) || (!rm && (sm || dm)))
            && (Has(s, SR_X) <==> Has(s, SR_C))
            && (Has(s, SR_Z) <==> res == 0) && (Has(s, SR_N) <==> rm)
            && (Has(s, SR_V) <==> sm == dm && rm != sm)
  {}

  lemma ExtendCarry(sr: bv32, carry: bool, overflow: bool, negative: bool, nonzero: bool)
    ensures var s := SetFlagsExtend(sr, carry, overflow, negative, nonzero);
            (Has(s, SR_C) <==> carry) && (Has(s, SR_X) <==> carry)
  {}

  lemma ExtendZero(sr: bv32, carry: bool, overflow: bool, negative: bool, nonzero: bool)
    ensures Has(SetFlagsExtend(sr, carry, overflow, negative, nonzero), SR_Z) <==> Has(sr, SR_Z) && !nonzero
  {}

  lemma ExtendSign(sr: bv32, carry: bool, overflow: bool, negative: bool, nonzero: bool)
    ensures var s := SetFlagsExtend(sr, carry, overflow, negative, nonzero);
            (Has(s, SR_N) <==> negative) && (Has(s, SR_V) <==> overflow)
  {}

  lemma ExtendFlags(sr: bv32, carry: bool, overflow: bool, negative: bool, nonzero: bool)
    ensures var s := SetFlagsExtend(sr, carry, overflow, negative, nonzero);
            && (Has(s, SR_C) <==> carry) && (Has(s, SR_X) <==> carry)
            && (Has(s, SR_Z) <==> Has(sr, SR_Z) && !nonzero)
            && (Has(s, SR_N) <==> negative) && (Has(s, SR_V) <==> overflow)
  {
    hide Has, SetFlagsExtend;
    ExtendCarry(sr, carry, overflow, negative, nonzero);
    ExtendZero(sr, carry, overflow, negative, nonzero);
    ExtendSign(sr, carry, overflow, negative, nonzero);
  }

  /** The sign bits of both operands and the result determine the borrow of SUB. */
  lemma SubExact(sr: bv32, src: u32, dst: u32)
    ensures SubSays(SubLong(sr, src, dst), true, src, dst, 0)
  {
    hide SetFlagsSub, Has;
    SubtractFlags(sr, src, dst, Wrap((dst as int) - src));
    SubOverflow(src, dst, 0);
  }

  lemma SubxExact(sr: bv32, src: u32, dst: u32)
    ensures SubSays(SubxLong(sr, src, dst), Has(sr, SR_Z), src, dst, ExtendBit(sr))
  {
    hide SetFlagsExtend, Has;
    var diff := (dst as int) - src - ExtendBit(sr);
    var res := Wrap(diff);
    ExtendFlags(sr, diff < 0, Msb(src) != Msb(dst) && Msb(res) == Msb(src), Msb(res), res != 0);
    SubOverflow(src, dst, ExtendBit(sr));
  }

  lemma AddExact(sr: bv32, src: u32, dst: u32)
    ensures AddSays(AddLong(sr, src, dst), true, src, dst, 0)
  {
    hide SetFlagsAdd, Has;
    AddFlags(sr, src, dst, Wrap(dst + src as int));
    AddOverflow(src, dst, 0);
  }

  lemma AddxExact(sr: bv32, src: u32, dst: u32)
    ensures AddSays(AddxLong(sr, src, dst), Has(sr, SR_Z), src, dst, ExtendBit(sr))
  {
    hide SetFlagsExtend, Has;
    var sum := (dst as int) + src + ExtendBit(sr);
    var res := Wrap(sum);
    ExtendFlags(sr, sum >= WORD, Msb(src) == Msb(dst) && Msb(res) != Msb(src), Msb(res), res != 0);
    AddOverflow(src, dst, ExtendBit(sr));
  }

  // ----- chains over limbs, least significant first -----

  /** 2^(32 n). */
  function Pow(n: nat): (p: int)
    ensures p >= 1
  {
    if n == 0 then 1 else WORD * Pow(n - 1)
  }

  function Value(s: seq<u32>): (v: int)
    ensures 0 <= v < Pow(|s|)
  {
    if s == [] then 0
    else
      var n := |s| - 1;
      TopLimb(Value(s[..n]), s[n], Pow(n));
      Value(s[..n]) + s[n] * Pow(n)
  }

  lemma TopLimb(low: int, top: u32, p: int)
    requires 0 <= low < p
    ensures 0 <= low + top * p < WORD * p
  {
    NonNegative(WORD - 1 - top, p);
    NonNegative(top, p);
    assert (WORD - 1 - top) * p == WORD * p - p - top * p;
  }

  lemma NonNegative(a: int, b: int)
    requires a >= 0 && b >= 0
    ensures a * b >= 0
  {}

  datatype OutN = OutN(sr: bv32, res: seq<u32>)

  /** SUB.L on the lowest limbs, then SUBX.L on each higher pair. */
  function SubChain(sr: bv32, src: seq<u32>, dst: seq<u32>): (o: OutN)
    requires |src| == |dst| > 0
    ensures |o.res| == |src|
    decreases |src|
  {
    var n := |src| - 1;
    if n == 0 then
      var o := SubLong(sr, src[0], dst[0]);
      OutN(o.sr, [o.res])
    else
      var low := SubChain(sr, src[..n], dst[..n]);
      var o := SubxLong(low.sr, src[n], dst[n]);
      OutN(o.sr, low.res + [o.res])
  }

  function AddChain(sr: bv32, src: seq<u32>, dst: seq<u32>): (o: OutN)
    requires |src| == |dst| > 0
    ensures |o.res| == |src|
    decreases |src|
  {
    var n := |src| - 1;
    if n == 0 then
      var o := AddLong(sr, src[0], dst[0]);
      OutN(o.sr, [o.res])
    else
      var low := AddChain(sr, src[..n], dst[..n]);
      var o := AddxLong(low.sr, src[n], dst[n]);
      OutN(o.sr, low.res + [o.res])
  }

  function Bit(sr: bv32, flag: bv32): int { if Has(sr, flag) then 1 else 0 }

  /** The chain computes the difference with the final borrow, and Z covers every limb. */
  lemma {:induction false} SubChainExact(sr: bv32, src: seq<u32>, dst: seq<u32>)
    requires |src| == |dst| > 0
    ensures var o := SubChain(sr, src, dst);
            && Value(o.res) == Value(dst) - Value(src) + Bit(o.sr, SR_C) * Pow(|src|)
            && (Has(o.sr, SR_X) <==> Has(o.sr, SR_C))
            && (Has(o.sr, SR_Z) <==> Value(o.res) == 0)
    decreases |src|
  {
    hide SubLong, SubxLong, Has, Value, Pow;
    var n := |src| - 1;
    if n == 0 {
      SubExact(sr, src[0], dst[0]);
      SingleLimb(src);
      SingleLimb(dst);
      SingleLimb(SubChain(sr, src, dst).res);
    } else {
      var low := SubChain(sr, src[..n], dst[..n]);
      SubChainExact(sr, src[..n], dst[..n]);
      SubxExact(low.sr, src[n], dst[n]);
      var o := SubxLong(low.sr, src[n], dst[n]);
      TopOf(low.res, o.res);
      Split(src);
      Split(dst);
      Combine(Value(low.res), Value(dst[..n]), Value(src[..n]), Bit(low.sr, SR_C),
              o.res, dst[n], src[n], Bit(o.sr, SR_C), Pow(n));
      ZeroTop(Value(low.res), o.res, Pow(n));
    }
  }

  /** A limb and its borrow on top of lower limbs and theirs. */
  lemma Combine(r0: int, d0: int, s0: int, b: int, r: int, d: int, s: int, c: int, p: int)
    requires r0 == d0 - s0 + b * p && r == d - s - b + c * WORD
    ensures r0 + r * p == (d0 + d * p) - (s0 + s * p) + c * (WORD * p)
  {
    assert r * p == d * p - s * p - b * p + c * (WORD * p);
  }

  lemma CombineSum(r0: int, d0: int, s0: int, b: int, r: int, d: int, s: int, c: int, p: int)
    requires r0 + b * p == d0 + s0 && r == d + s + b - c * WORD
    ensures (r0 + r * p) + c * (WORD * p) == (d0 + d * p) + (s0 + s * p)
  {
    assert r * p == d * p + s * p + b * p - c * (WORD * p);
  }

  lemma SingleLimb(s: seq<u32>)
    requires |s| == 1
    ensures Value(s) == s[0] && Pow(1) == WORD
  {
    assert s[..0] == [];
    assert Value(s[..0]) == 0 && Pow(0) == 1;
    assert Pow(1) == WORD * Pow(0);
  }

  lemma Split(s: seq<u32>)
    requires |s| > 0
    ensures var n := |s| - 1; Value(s) == Value(s[..n]) + s[n] * Pow(n) && Pow(n + 1) == WORD * Pow(n)
  {}

  lemma TopOf(low: seq<u32>, top: u32)
    ensures Value(low + [top]) == Value(low) + top * Pow(|low|)
  {
    assert (low + [top])[..|low|] == low;
  }

  lemma ZeroTop(low: int, top: u32, p: int)
    requires 0 <= low < p
    ensures low + top * p == 0 <==> low == 0 && top == 0
  {
    NonNegative(top, p);
    if top > 0 { NonNegative(top - 1, p); assert (top - 1) * p == top * p - p; }
  }

  lemma {:induction false} AddChainExact(sr: bv32, src: seq<u32>, dst: seq<u32>)
    requires |src| == |dst| > 0
    ensures var o := AddChain(sr, src, dst);
            && Value(o.res) + Bit(o.sr, SR_C) * Pow(|src|) == Value(dst) + Value(src)
            && (Has(o.sr, SR_X) <==> Has(o.sr, SR_C))
            && (Has(o.sr, SR_Z) <==> Value(o.res) == 0)
    decreases |src|
  {
    hide AddLong, AddxLong, Has, Value, Pow;
    var n := |src| - 1;
    if n == 0 {
      AddExact(sr, src[0], dst[0]);
      SingleLimb(src);
      SingleLimb(dst);
      SingleLimb(AddChain(sr, src, dst).res);
    } else {
      var low := AddChain(sr, src[..n], dst[..n]);
      AddChainExact(sr, src[..n], dst[..n]);
      AddxExact(low.sr, src[n], dst[n]);
      var o := AddxLong(low.sr, src[n], dst[n]);
      TopOf(low.res, o.res);
      Split(src);
      Split(dst);
      CombineSum(Value(low.res), Value(dst[..n]), Value(src[..n]), Bit(low.sr, SR_C),
                 o.res, dst[n], src[n], Bit(o.sr, SR_C), Pow(n));
      ZeroTop(Value(low.res), o.res, Pow(n));
    }
  }

  /** The two's complement reading of n limbs. */
  function Signed(s: seq<u32>): int
    requires |s| > 0
  {
    Value(s) - if Msb(s[|s| - 1]) then Pow(|s|) else 0
  }

  lemma SignBit(s: seq<u32>)
    requires |s| > 0
    ensures Msb(s[|s| - 1]) <==> 2 * Value(s) >= Pow(|s|)
  {
    hide Value, Pow;
    Split(s);
    TopHalf(Value(s[..|s| - 1]), s[|s| - 1], Pow(|s| - 1));
  }

  lemma TopHalf(low: int, top: u32, p: int)
    requires 0 <= low < p
    ensures top >= 0x8000_0000 <==> 2 * (low + top * p) >= WORD * p
  {
    if top >= 0x8000_0000 {
      NonNegative(top - 0x8000_0000, p);
      assert (top - 0x8000_0000) * p == top * p - 0x8000_0000 * p;
    } else {
      NonNegative(0x7fff_ffff - top, p);
      assert (0x7fff_ffff - top) * p == 0x7fff_ffff * p - top * p;
    }
  }

  /** N and V come from the most significant limbs alone. */
  lemma SubTopFlags(sr: bv32, src: seq<u32>, dst: seq<u32>)
    requires |src| == |dst| > 0
    ensures var o, n := SubChain(sr, src, dst), |src| - 1;
            && (Has(o.sr, SR_N) <==> Msb(o.res[n]))
            && (Has(o.sr, SR_V) <==> Msb(src[n]) != Msb(dst[n]) && Msb(o.res[n]) == Msb(src[n]))
  {
    hide SubLong, SubxLong, Has, Msb;
    var n := |src| - 1;
    if n == 0 {
      SubFormula(sr, src[0], dst[0]);
    } else {
      SubxFormula(SubChain(sr, src[..n], dst[..n]).sr, src[n], dst[n]);
    }
  }

  lemma SubFormula(sr: bv32, src: u32, dst: u32)
    ensures var o := SubLong(sr, src, dst);
      && (Has(o.sr, SR_N) <==> Msb(o.res))
      && (Has(o.sr, SR_V) <==> Msb(src) != Msb(dst) && Msb(o.res) == Msb(src))
  {
    hide Has, SetFlagsSub, Msb, Wrap;
    SubtractFlags(sr, src, dst, Wrap((dst as int) - src));
  }

  lemma SubxFormula(sr: bv32, src: u32, dst: u32)
    ensures var o := SubxLong(sr, src, dst);
      && (Has(o.sr, SR_N) <==> Msb(o.res))
      && (Has(o.sr, SR_V) <==> Msb(src) != Msb(dst) && Msb(o.res) == Msb(src))
  {
    hide Has, SetFlagsExtend, Msb, Wrap;
    var diff := (dst as int) - src - ExtendBit(sr);
    var res := Wrap(diff);
    ExtendFlags(sr, diff < 0, Msb(src) != Msb(dst) && Msb(res) == Msb(src), Msb(res), res != 0);
  }

  lemma AddFormula(sr: bv32, src: u32, dst: u32)
    ensures var o := AddLong(sr, src, dst);
      && (Has(o.sr, SR_N) <==> Msb(o.res))
      && (Has(o.sr, SR_V) <==> Msb(src) == Msb(dst) && Msb(o.res) != Msb(src))
  {
    hide Has, SetFlagsAdd, Msb, Wrap;
    AddFlags(sr, src, dst, Wrap(dst + src as int));
  }

  lemma AddxFormula(sr: bv32, src: u32, dst: u32)
    ensures var o := AddxLong(sr, src, dst);
      && (Has(o.sr, SR_N) <==> Msb(o.res))
      && (Has(o.sr, SR_V) <==> Msb(src) == Msb(dst) && Msb(o.res) != Msb(src))
  {
    hide Has, SetFlagsExtend, Msb, Wrap;
    var sum := (dst as int) + src + ExtendBit(sr);
    var res := Wrap(sum);
    ExtendFlags(sr, sum >= WORD, Msb(src) == Msb(dst) && Msb(res) != Msb(src), Msb(res), res != 0);
  }

  lemma AddTopFlags(sr: bv32, src: seq<u32>, dst: seq<u32>)
    requires |src| == |dst| > 0
    ensures var o, n := AddChain(sr, src, dst), |src| - 1;
            && (Has(o.sr, SR_N) <==> Msb(o.res[n]))
            && (Has(o.sr, SR_V) <==> Msb(src[n]) == Msb(dst[n]) && Msb(o.res[n]) != Msb(src[n]))
  {
    hide AddLong, AddxLong, Has, Msb;
    var n := |src| - 1;
    if n == 0 {
      AddFormula(sr, src[0], dst[0]);
    } else {
      AddxFormula(AddChain(sr, src[..n], dst[..n]).sr, src[n], dst[n]);
    }
  }

  /** The values n limbs can hold in two's complement. */
  predicate InSignedWhole(v: int, n: nat) { -Pow(n) <= 2 * v < Pow(n) }

  /** After SUB and any number of SUBX, the result is the difference modulo 2^(32 n) and
      every condition code answers the comparison of the whole numbers, unsigned for
      HI, LS, CC and CS, two's complement for GE, LT, GT and LE. */
  lemma ComparesWhole(sr: bv32, src: seq<u32>, dst: seq<u32>)
    requires |src| == |dst| > 0
    ensures var o := SubChain(sr, src, dst);
            var d, s := Value(dst), Value(src);
            && Value(o.res) == (d - s) % Pow(|src|)
            && (EvalCc(o.sr, 0x2) <==> d > s)
            && (EvalCc(o.sr, 0x3) <==> d <= s)
            && (EvalCc(o.sr, 0x4) <==> d >= s)
            && (EvalCc(o.sr, 0x5) <==> d < s)
            && (EvalCc(o.sr, 0x6) <==> d != s)
            && (EvalCc(o.sr, 0x7) <==> d == s)
            && (EvalCc(o.sr, 0xC) <==> Signed(dst) >= Signed(src))
            && (EvalCc(o.sr, 0xD) <==> Signed(dst) < Signed(src))
            && (EvalCc(o.sr, 0xE) <==> Signed(dst) > Signed(src))
            && (EvalCc(o.sr, 0xF) <==> Signed(dst) <= Signed(src))
            && (EvalCc(o.sr, 0xB) <==> Signed(o.res) < 0)
            && (EvalCc(o.sr, 0x9) <==> !InSignedWhole(Signed(dst) - Signed(src), |src|))
  {
    hide SubChain, Value, Has, Pow, Msb;
    var o := SubChain(sr, src, dst);
    SubChainExact(sr, src, dst);
    SubTopFlags(sr, src, dst);
    SignBit(src);
    SignBit(dst);
    SignBit(o.res);
    Modulo(Value(o.res), Value(dst) - Value(src), Bit(o.sr, SR_C), Pow(|src|));
  }

  lemma Modulo(r: int, v: int, c: int, m: int)
    requires r == v + c * m && 0 <= r < m && (c == 0 || c == 1)
    ensures r == v % m
  {
    Remainder(r, v, -c, m);
  }

  /** The remainder is the only number in range that differs by a multiple. */
  lemma Remainder(r: int, v: int, q: int, m: int)
    requires 0 <= r < m && v == q * m + r
    ensures r == v % m
  {
    var d := v / m - q;
    assert d * m == (v / m) * m - q * m == r - v % m;
    Multiple(d, m);
  }

  lemma Multiple(d: int, m: int)
    requires m > 0
    ensures (d >= 1 ==> d * m >= m) && (d <= -1 ==> d * m <= -m)
  {
    if d >= 1 {
      NonNegative(d - 1, m);
      assert (d - 1) * m == d * m - m;
    } else if d <= -1 {
      NonNegative(-d - 1, m);
      assert (-d - 1) * m == -(d * m) - m;
    }
  }

  lemma CarryOut(r: int, v: int, c: int, m: int)
    requires r + c * m == v && 0 <= r < m && (c == 0 || c == 1)
    ensures r == v % m && (c == 1 <==> v >= m)
  {
    Remainder(r, v, c, m);
  }

  /** After ADD and any number of ADDX: the sum modulo 2^(32 n), the carry out of the top,
      and zero, sign and signed overflow of the whole result. */
  lemma AddsWhole(sr: bv32, src: seq<u32>, dst: seq<u32>)
    requires |src| == |dst| > 0
    ensures var o := AddChain(sr, src, dst);
            && Value(o.res) == (Value(dst) + Value(src)) % Pow(|src|)
            && (EvalCc(o.sr, 0x5) <==> Value(dst) + Value(src) >= Pow(|src|))
            && (EvalCc(o.sr, 0x7) <==> Value(o.res) == 0)
            && (EvalCc(o.sr, 0xB) <==> Signed(o.res) < 0)
            && (EvalCc(o.sr, 0x9) <==> !InSignedWhole(Signed(dst) + Signed(src), |src|))
  {
    hide AddChain, Value, Has, Pow, Msb;
    var o := AddChain(sr, src, dst);
    AddChainExact(sr, src, dst);
    AddTopFlags(sr, src, dst);
    SignBit(src);
    SignBit(dst);
    SignBit(o.res);
    CarryOut(Value(o.res), Value(dst) + Value(src), Bit(o.sr, SR_C), Pow(|src|));
  }

  // ----- the instructions on the register file -----

  class Cpu {
    const d: array<u32>
    var sr: bv32

    constructor ()
      ensures d.Length == 8 && sr == 0 && forall i :: 0 <= i < 8 ==> d[i] == 0
    {
      d := new u32[8](_ => 0);
      sr := 0;
    }

    /** SUB.L of a long source operand from Dx: the exact difference, its borrow, and the flags
        that describe it; no other register changes. */
    method Sub(src: u32, rx: nat)
      requires d.Length == 8 && rx < 8
      modifies this, d
      ensures Out(sr, d[rx]) == SubLong(old(sr), src, old(d[rx]))
      ensures SubSays(Out(sr, d[rx]), true, src, old(d[rx]), 0)
      ensures forall i :: 0 <= i < 8 && i != rx ==> d[i] == old(d[i])
    {
      hide SubSays, AddSays, SetFlagsSub, SetFlagsAdd, Wrap;
      var dst := d[rx];
      var res := Wrap((dst as int) - src);
      d[rx] := res;
      sr := SetFlagsSub(sr, src, dst, res);
      SubExact(old(sr), src, dst);
    }

    /** ADD.L of a long source operand to Dx, likewise. */
    method Add(src: u32, rx: nat)
      requires d.Length == 8 && rx < 8
      modifies this, d
      ensures Out(sr, d[rx]) == AddLong(old(sr), src, old(d[rx]))
      ensures AddSays(Out(sr, d[rx]), true, src, old(d[rx]), 0)
      ensures forall i :: 0 <= i < 8 && i != rx ==> d[i] == old(d[i])
    {
      hide SubSays, AddSays, SetFlagsSub, SetFlagsAdd, Wrap;
      var dst := d[rx];
      var res := Wrap(dst + src as int);
      d[rx] := res;
      sr := SetFlagsAdd(sr, src, dst, res);
      AddExact(old(sr), src, dst);
    }

    /** SUBX Dy,Dx: the difference with the borrow of the limb below. */
    method Subx(ry: nat, rx: nat)
      requires d.Length == 8 && rx < 8 && ry < 8
      modifies this, d
      ensures Out(sr, d[rx]) == SubxLong(old(sr), old(d[ry]), old(d[rx]))
      ensures SubSays(Out(sr, d[rx]), Has(old(sr), SR_Z), old(d[ry]), old(d[rx]), ExtendBit(old(sr)))
      ensures forall i :: 0 <= i < 8 && i != rx ==> d[i] == old(d[i])
    {
      hide SubSays, AddSays, SetFlagsExtend, Wrap, Has, Msb;
      var src, dst := d[ry], d[rx];
      var diff := (dst as int) - src - ExtendBit(sr);
      var res := Wrap(diff);
      d[rx] := res;
      sr := SetFlagsExtend(sr, diff < 0, Msb(src) != Msb(dst) && Msb(res) == Msb(src), Msb(res), res != 0);
      SubxExact(old(sr), src, dst);
    }

    /** ADDX Dy,Dx: the sum with the carry of the limb below. */
    method Addx(ry: nat, rx: nat)
      requires d.Length == 8 && rx < 8 && ry < 8
      modifies this, d
      ensures Out(sr, d[rx]) == AddxLong(old(sr), old(d[ry]), old(d[rx]))
      ensures AddSays(Out(sr, d[rx]), Has(old(sr), SR_Z), old(d[ry]), old(d[rx]), ExtendBit(old(sr)))
      ensures forall i :: 0 <= i < 8 && i != rx ==> d[i] == old(d[i])
    {
      hide SubSays, AddSays, SetFlagsExtend, Wrap, Has, Msb;
      var src, dst := d[ry], d[rx];
      var sum := (dst as int) + src + ExtendBit(sr);
      var res := Wrap(sum);
      d[rx] := res;
      sr := SetFlagsExtend(sr, sum >= WORD, Msb(src) == Msb(dst) && Msb(res) != Msb(src), Msb(res), res != 0);
      AddxExact(old(sr), src, dst);
    }
  }
}
