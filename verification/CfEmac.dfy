/** The ColdFire EMAC: four 48-bit accumulators, multiply-accumulate in 64-bit wrapping
    arithmetic, and the register moves that save and restore the unit. */
module CfEmac {
  import opened Bytes

  const TWO16 := 0x1_0000
  const TWO32 := 0x1_0000_0000
  const TWO47 := 0x8000_0000_0000
  const TWO48 := 0x1_0000_0000_0000
  const TWO63 := 0x8000_0000_0000_0000
  const TWO64 := 0x1_0000_0000_0000_0000

  type Index = k: int | 0 <= k < 4

  const MACSR_OMC: bv32 := 0x80
  const MACSR_SU: bv32 := 0x40
  const MACSR_FI: bv32 := 0x20
  const MACSR_N: bv32 := 0x08
  const MACSR_Z: bv32 := 0x04
  const MACSR_V: bv32 := 0x02
  const MACSR_EV: bv32 := 0x01

  /** The sticky overflow bit of accumulator `k`. */
  function Pav(k: Index): bv32 {
    if k == 0 then 0x1000 else if k == 1 then 0x2000 else if k == 2 then 0x4000 else 0x8000
  }

  predicate Has(m: bv32, f: bv32) { m & f != 0 }

  function Wrap64(v: int): int { (v + TWO63) % TWO64 - TWO63 }
  function SignExtend48(v: int): int { (v + TWO47) % TWO48 - TWO47 }
  function SignExtend40(v: int): int { (v + 0x80_0000_0000) % 0x100_0000_0000 - 0x80_0000_0000 }
  function SignExtend32(v: int): int { (v + 0x8000_0000) % TWO32 - 0x8000_0000 }

  predicate In48(v: int) { -TWO47 <= v < TWO47 }

  datatype Emac = Emac(acc: seq<int>, macsr: bv32, mask: u32)

  predicate Valid(e: Emac) {
    |e.acc| == 4 && forall k :: 0 <= k < 4 ==> In48(e.acc[k])
  }

  // ----- MAC and MSAC -----

  datatype Op = Op(k: Index, rx: u32, ry: u32, sf: int, sub: bool)

  function Product(unsigned_: bool, rx: u32, ry: u32): int {
    if unsigned_ then Wrap64(rx * ry as int) else SignExtend32(rx) * SignExtend32(ry)
  }

  /** Scale factor 1 doubles, 3 halves rounding down, anything else leaves alone. */
  function Scaled(p: int, sf: int): int {
    if sf == 1 then Wrap64(2 * p) else if sf == 3 then p / 2 else p
  }

  /** The flag updates after an operation on accumulator `k`. */
  function SetFlags(m: bv32, pav: bv32, over: bool, ev: bool, zero: bool, neg: bool): bv32 {
    Refreshed(if over then Marked(m, pav) else m, pav, ev, zero, neg)
  }

  function Marked(m: bv32, pav: bv32): bv32 { m | pav }

  /** N, Z, V and EV from the result; V repeats the sticky bit. */
  function Refreshed(m: bv32, pav: bv32, ev: bool, zero: bool, neg: bool): bv32 {
    var m2 := m & !(MACSR_N | MACSR_Z | MACSR_V | MACSR_EV);
    var m3 := if Has(m2, pav) then m2 | MACSR_V else m2;
    var m4 := if ev then m3 | MACSR_EV else m3;
    var m5 := if zero then m4 | MACSR_Z else m4;
    if neg then m5 | MACSR_N else m5
  }

  function Outgrown(m: bv32, r: int): bool {
    if Has(m, MACSR_FI) then r != SignExtend40(r)
    else if Has(m, MACSR_SU) then !(0 <= r < TWO32)
    else r != SignExtend32(r)
  }

  function Confined(m: bv32, v: int): int {
    if In48(v) then v
    else if Has(m, MACSR_OMC) then (if v >= TWO47 then TWO47 - 1 else -TWO47)
    else SignExtend48(v)
  }

  function Accumulate(e: Emac, op: Op): (r: Emac)
    requires Valid(e)
    ensures Valid(r)
  {
    var p := Scaled(Product(Has(e.macsr, MACSR_SU), op.rx, op.ry), op.sf);
    var v := Wrap64(if op.sub then e.acc[op.k] - p else e.acc[op.k] + p);
    var r := Confined(e.macsr, v);
    Emac(e.acc[op.k := r],
         SetFlags(e.macsr, Pav(op.k), !In48(v), Outgrown(e.macsr, r), r == 0, r < 0),
         e.mask)
  }

  function Run(e: Emac, ops: seq<Op>): (r: Emac)
    requires Valid(e)
    ensures Valid(r)
  {
    if ops == [] then e else Accumulate(Run(e, ops[..|ops| - 1]), ops[|ops| - 1])
  }

  // ----- exact integers -----

  /** What one operation adds, without any wrapping. */
  function Term(op: Op): int {
    var p := SignExtend32(op.rx) * SignExtend32(op.ry);
    var s := if op.sf == 1 then 2 * p else if op.sf == 3 then p / 2 else p;
    if op.sub then -s else s
  }

  function Sum(ops: seq<Op>, k: Index): int {
    if ops == [] then 0
    else Sum(ops[..|ops| - 1], k) + if ops[|ops| - 1].k == k then Term(ops[|ops| - 1]) else 0
  }

  /** Signed mode without saturation. */
  predicate SignedWrapping(m: bv32) { !Has(m, MACSR_SU) && !Has(m, MACSR_OMC) }

  lemma FlagModes(m: bv32, pav: bv32, over: bool, ev: bool, zero: bool, neg: bool)
    requires pav == 0x1000 || pav == 0x2000 || pav == 0x4000 || pav == 0x8000
    ensures var m' := SetFlags(m, pav, over, ev, zero, neg);
            Has(m', MACSR_SU) == Has(m, MACSR_SU) && Has(m', MACSR_OMC) == Has(m, MACSR_OMC)
  {}

  lemma FlagOwn0(m: bv32, over: bool, ev: bool, zero: bool, neg: bool)
    ensures Has(SetFlags(m, 0x1000, over, ev, zero, neg), 0x1000) == (Has(m, 0x1000) || over)
  {}

  lemma FlagOwn1(m: bv32, over: bool, ev: bool, zero: bool, neg: bool)
    ensures Has(SetFlags(m, 0x2000, over, ev, zero, neg), 0x2000) == (Has(m, 0x2000) || over)
  {}

  lemma FlagOwn2(m: bv32, over: bool, ev: bool, zero: bool, neg: bool)
    ensures Has(SetFlags(m, 0x4000, over, ev, zero, neg), 0x4000) == (Has(m, 0x4000) || over)
  {}

  lemma FlagOwn3(m: bv32, over: bool, ev: bool, zero: bool, neg: bool)
    ensures Has(SetFlags(m, 0x8000, over, ev, zero, neg), 0x8000) == (Has(m, 0x8000) || over)
  {}

  lemma FlagOther(m: bv32, pav: bv32, other: bv32, over: bool, ev: bool, zero: bool, neg: bool)
    requires other == 0x1000 || other == 0x2000 || other == 0x4000 || other == 0x8000
    requires pav & other == 0 && pav & 0x0f == 0
    ensures Has(SetFlags(m, pav, over, ev, zero, neg), other) == Has(m, other)
  {}

  /** The overflow bits are sticky, and only the accumulator's own is set. */
  lemma FlagSticky(m: bv32, k: Index, j: Index, over: bool, ev: bool, zero: bool, neg: bool)
    ensures Has(SetFlags(m, Pav(k), over, ev, zero, neg), Pav(j)) == (Has(m, Pav(j)) || (k == j && over))
  {
    hide Has, SetFlags;
    if k == j {
      match k {
        case 0 => FlagOwn0(m, over, ev, zero, neg);
        case 1 => FlagOwn1(m, over, ev, zero, neg);
        case 2 => FlagOwn2(m, over, ev, zero, neg);
        case _ => FlagOwn3(m, over, ev, zero, neg);
      }
    } else {
      FlagOther(m, Pav(k), Pav(j), over, ev, zero, neg);
    }
  }

  lemma FlagResult(m: bv32, pav: bv32, over: bool, ev: bool, zero: bool, neg: bool)
    requires pav == 0x1000 || pav == 0x2000 || pav == 0x4000 || pav == 0x8000
    ensures var m' := SetFlags(m, pav, over, ev, zero, neg);
            && Has(m', MACSR_V) == Has(m', pav) && Has(m', MACSR_EV) == ev
            && Has(m', MACSR_Z) == zero && Has(m', MACSR_N) == neg
  {}

  lemma SignedRange(v: u32)
    ensures -0x8000_0000 <= SignExtend32(v) < 0x8000_0000
  {}

  lemma ProductRange(a: int, b: int)
    requires -0x8000_0000 <= a < 0x8000_0000 && -0x8000_0000 <= b < 0x8000_0000
    ensures -0x4000_0000_0000_0000 < a * b + 1 && a * b <= 0x4000_0000_0000_0000
  {
    var h := 0x8000_0000;
    if a >= 0 && b >= 0 { Bound(a, b, h); }
    else if a < 0 && b < 0 { Bound(-a, -b, h); assert (-a) * (-b) == a * b; }
    else if a < 0 { Bound(-a, b, h); assert (-a) * b == -(a * b); }
    else { Bound(a, -b, h); assert a * (-b) == -(a * b); }
  }

  lemma Bound(a: int, b: int, h: int)
    requires 0 <= a <= h && 0 <= b <= h
    ensures 0 <= a * b <= h * h
  {
    NonNegative(a, b);
    NonNegative(h - a, b);
    NonNegative(h, h - b);
    assert (h - a) * b == h * b - a * b;
    assert h * (h - b) == h * h - h * b;
  }

  lemma NonNegative(a: int, b: int)
    requires a >= 0 && b >= 0
    ensures a * b >= 0
  {}

  /** In 64-bit wrapping arithmetic the step is right modulo 2^48; if it lands in range,
      it is exact. */
  lemma WrapsAgree(acc: int, p: int, t: int)
    requires In48(acc) && -0x4000_0000_0000_0000 <= p <= 0x4000_0000_0000_0000
    requires t == p || t == 2 * p || t == p / 2
    ensures var v := Wrap64(acc + Wrap64(t));
            && (SignExtend48(v) - (acc + t)) % TWO48 == 0
            && (In48(v) ==> v == acc + t)
            && In48(SignExtend48(v))
  {}

  lemma HalfSmall(p: int)
    requires -0x4000_0000_0000_0000 <= p <= 0x4000_0000_0000_0000
    ensures Wrap64(p) == p && Wrap64(p / 2) == p / 2
  {}

  /** One step in signed wrapping mode against the exact term. */
  lemma StepAgrees(e: Emac, op: Op)
    requires Valid(e) && SignedWrapping(e.macsr)
    ensures var r := Accumulate(e, op);
            && SignedWrapping(r.macsr)
            && (r.acc[op.k] - (e.acc[op.k] + Term(op))) % TWO48 == 0
            && (!Has(r.macsr, Pav(op.k)) ==> !Has(e.macsr, Pav(op.k)) && r.acc[op.k] == e.acc[op.k] + Term(op))
            && (forall j: Index :: j != op.k ==> r.acc[j] == e.acc[j] && Has(r.macsr, Pav(j)) == Has(e.macsr, Pav(j)))
            && Has(r.macsr, MACSR_V) == Has(r.macsr, Pav(op.k))
            && Has(r.macsr, MACSR_Z) == (r.acc[op.k] == 0) && Has(r.macsr, MACSR_N) == (r.acc[op.k] < 0)
  {
    hide Has, SetFlags, Wrap64, SignExtend48, SignExtend32, SignExtend40;
    var a, b := SignExtend32(op.rx), SignExtend32(op.ry);
    SignedRange(op.rx);
    SignedRange(op.ry);
    ProductRange(a, b);
    var p := a * b;
    var t := if op.sf == 1 then 2 * p else if op.sf == 3 then p / 2 else p;
    HalfSmall(p);
    StepValue(e.acc[op.k], p, t, op.sub);
    var v := Wrap64(if op.sub then e.acc[op.k] - Wrap64(t) else e.acc[op.k] + Wrap64(t));
    assert Scaled(Product(false, op.rx, op.ry), op.sf) == Wrap64(t);
    var r := Confined(e.macsr, v);
    var over, ev, zero, neg := !In48(v), Outgrown(e.macsr, r), r == 0, r < 0;
    FlagModes(e.macsr, Pav(op.k), over, ev, zero, neg);
    FlagResult(e.macsr, Pav(op.k), over, ev, zero, neg);
    forall j: Index ensures Has(Accumulate(e, op).macsr, Pav(j)) == (Has(e.macsr, Pav(j)) || (op.k == j && over)) {
      FlagSticky(e.macsr, op.k, j, over, ev, zero, neg);
    }
  }

  /** The same with the sign of MSAC. */
  lemma StepValue(acc: int, p: int, t: int, sub: bool)
    requires In48(acc) && -0x4000_0000_0000_0000 <= p <= 0x4000_0000_0000_0000
    requires t == p || t == 2 * p || t == p / 2
    ensures var v := Wrap64(if sub then acc - Wrap64(t) else acc + Wrap64(t));
            var s := if sub then -t else t;
            && (SignExtend48(v) - (acc + s)) % TWO48 == 0
            && (In48(v) ==> v == acc + s)
  {
    hide SignExtend48, Wrap64;
    if sub { WrapsAgreeSub(acc, p, t); } else { WrapsAgree(acc, p, t); }
  }

  lemma WrapsAgreeSub(acc: int, p: int, t: int)
    requires In48(acc) && -0x4000_0000_0000_0000 <= p <= 0x4000_0000_0000_0000
    requires t == p || t == 2 * p || t == p / 2
    ensures var v := Wrap64(acc - Wrap64(t));
            && (SignExtend48(v) - (acc - t)) % TWO48 == 0
            && (In48(v) ==> v == acc - t)
  {
    var v := Wrap64(acc - Wrap64(t));
    WrapsBack(acc, p, t);
    hide Wrap64;
    ModShift(v, acc - t);
  }

  lemma WrapsBack(acc: int, p: int, t: int)
    requires In48(acc) && -0x4000_0000_0000_0000 <= p <= 0x4000_0000_0000_0000
    requires t == p || t == 2 * p || t == p / 2
    ensures var v := Wrap64(acc - Wrap64(t)); v - (acc - t) in {-TWO64, 0, TWO64} && (In48(v) ==> v == acc - t)
  {}

  lemma ModShift(v: int, w: int)
    requires v - w in {-TWO64, 0, TWO64}
    ensures (SignExtend48(v) - w) % TWO48 == 0
  {}

  lemma SumsMod(r: int, a: int, s: int, t: int, base: int)
    requires (a - (base + s)) % TWO48 == 0 && (r - (a + t)) % TWO48 == 0
    ensures (r - (base + (s + t))) % TWO48 == 0
  {}

  /** Any sequence of MAC and MSAC in signed wrapping mode: every accumulator stays in
      48-bit range and equals the running sum modulo 2^48, and it equals the exact sum
      if its overflow bit is still clear at the end. */
  lemma {:induction false} RunIsSum(e: Emac, ops: seq<Op>, k: Index)
    requires Valid(e) && SignedWrapping(e.macsr)
    ensures var r := Run(e, ops);
            && SignedWrapping(r.macsr)
            && In48(r.acc[k])
            && (r.acc[k] - (e.acc[k] + Sum(ops, k))) % TWO48 == 0
            && (!Has(r.macsr, Pav(k)) ==> !Has(e.macsr, Pav(k)) && r.acc[k] == e.acc[k] + Sum(ops, k))
    decreases |ops|
  {
    hide Has, Accumulate, Pav, Term;
    if ops != [] {
      var init, op := ops[..|ops| - 1], ops[|ops| - 1];
      RunIsSum(e, init, k);
      var m := Run(e, init);
      StepAgrees(m, op);
      if op.k == k {
        SumsMod(Accumulate(m, op).acc[k], m.acc[k], Sum(init, k), Term(op), e.acc[k]);
      }
    }
  }

  // ----- unsigned mode -----

  predicate UnsignedWrapping(m: bv32) { Has(m, MACSR_SU) && !Has(m, MACSR_OMC) }

  /** The exact value of the product with its scale factor. */
  function Magnitude(op: Op): int {
    var p := (op.rx as int) * op.ry;
    if op.sf == 1 then 2 * p else if op.sf == 3 then p / 2 else p
  }

  function UnsignedTerm(op: Op): int { if op.sub then -Magnitude(op) else Magnitude(op) }

  /** The product, doubled if asked for, fits the signed 64-bit variable it is kept in. */
  predicate Small(op: Op) {
    var p := (op.rx as int) * op.ry;
    if op.sf == 1 then 2 * p < TWO63 else p < TWO63
  }

  /** The operand is the exact one less what did not fit. */
  lemma UnsignedOperand(op: Op)
    ensures var p := Scaled(Product(true, op.rx, op.ry), op.sf);
      -TWO63 <= p < TWO63 && p <= Magnitude(op) && (p == Magnitude(op) <==> Small(op))
  {
    Bound(op.rx, op.ry, TWO32 - 1);
    OperandFits((op.rx as int) * op.ry, op.sf);
  }

  lemma OperandFits(p: int, sf: int)
    requires 0 <= p <= (TWO32 - 1) * (TWO32 - 1)
    ensures var q := Scaled(Wrap64(p), sf);
            var t := if sf == 1 then 2 * p else if sf == 3 then p / 2 else p;
      && -TWO63 <= q < TWO63 && q <= t
      && (q == t <==> if sf == 1 then 2 * p < TWO63 else p < TWO63)
  {}

  lemma Lands(acc: int, p: int)
    requires In48(acc) && -TWO63 <= p < TWO63
    ensures In48(Wrap64(acc + p)) ==> Wrap64(acc + p) == acc + p
    ensures In48(Wrap64(acc - p)) ==> Wrap64(acc - p) == acc - p
  {}

  /** One step in unsigned wrapping mode that leaves PAV clear adds the exact term if and only
      if the product was small: a large one passes for a negative number unnoticed. */
  lemma UnsignedStepExactly(e: Emac, op: Op)
    requires Valid(e) && UnsignedWrapping(e.macsr)
    ensures var r := Accumulate(e, op);
            && UnsignedWrapping(r.macsr)
            && (Has(e.macsr, Pav(op.k)) ==> Has(r.macsr, Pav(op.k)))
            && (!Has(r.macsr, Pav(op.k)) ==> (r.acc[op.k] == e.acc[op.k] + UnsignedTerm(op) <==> Small(op)))
            && (forall j: Index :: j != op.k ==> r.acc[j] == e.acc[j] && Has(r.macsr, Pav(j)) == Has(e.macsr, Pav(j)))
  {
    hide Has, SetFlags, Wrap64, SignExtend48, SignExtend32, SignExtend40, Product, Scaled, Small, Magnitude;
    var p := Scaled(Product(true, op.rx, op.ry), op.sf);
    UnsignedOperand(op);
    Lands(e.acc[op.k], p);
    var v := Wrap64(if op.sub then e.acc[op.k] - p else e.acc[op.k] + p);
    var r := Confined(e.macsr, v);
    var over, ev, zero, neg := !In48(v), Outgrown(e.macsr, r), r == 0, r < 0;
    FlagModes(e.macsr, Pav(op.k), over, ev, zero, neg);
    forall j: Index ensures Has(Accumulate(e, op).macsr, Pav(j)) == (Has(e.macsr, Pav(j)) || (op.k == j && over)) {
      FlagSticky(e.macsr, op.k, j, over, ev, zero, neg);
    }
  }

  function UnsignedSum(ops: seq<Op>, k: Index): int {
    if ops == [] then 0
    else UnsignedSum(ops[..|ops| - 1], k) + if ops[|ops| - 1].k == k then UnsignedTerm(ops[|ops| - 1]) else 0
  }

  /** Any sequence of small products in that mode: exact if PAV is still clear at the end. */
  lemma {:induction false} UnsignedRunIsSum(e: Emac, ops: seq<Op>, k: Index)
    requires Valid(e) && UnsignedWrapping(e.macsr) && forall i :: 0 <= i < |ops| ==> Small(ops[i])
    ensures var r := Run(e, ops);
            && UnsignedWrapping(r.macsr)
            && (!Has(r.macsr, Pav(k)) ==> !Has(e.macsr, Pav(k)) && r.acc[k] == e.acc[k] + UnsignedSum(ops, k))
    decreases |ops|
  {
    hide Has, Accumulate, Pav, UnsignedTerm, Small;
    if ops != [] {
      var init, op := ops[..|ops| - 1], ops[|ops| - 1];
      UnsignedRunIsSum(e, init, k);
      UnsignedStepExactly(Run(e, init), op);
    }
  }

  /** The largest product on an empty accumulator: 1 - 2^33, and no flag says so. */
  lemma UnsignedLost(e: Emac, k: Index)
    requires Valid(e) && UnsignedWrapping(e.macsr) && e.acc[k] == 0 && !Has(e.macsr, Pav(k))
    ensures var r := Accumulate(e, Op(k, TWO32 - 1, TWO32 - 1, 0, false));
      r.acc[k] == 1 - 2 * TWO32 && !Has(r.macsr, Pav(k))
  {
    hide Has, SetFlags;
    var op := Op(k, TWO32 - 1, TWO32 - 1, 0, false);
    var v := 1 - 2 * TWO32;
    assert Product(true, op.rx, op.ry) == v;
    FlagSticky(e.macsr, k, k, false, Outgrown(e.macsr, v), false, true);
  }

  // ----- saturation and the extension flag -----

  predicate SignedSaturating(m: bv32) { !Has(m, MACSR_SU) && Has(m, MACSR_OMC) }

  /** The nearest 48-bit value. */
  function Nearest48(v: int): int { if v < -TWO47 then -TWO47 else if v >= TWO47 then TWO47 - 1 else v }

  /** One step in signed saturating mode gives the 48-bit value nearest to the exact sum if and
      only if that sum fits 64 bits: beyond, it wraps and is pinned at the wrong end. */
  lemma SaturatesExactly(e: Emac, op: Op)
    requires Valid(e) && SignedSaturating(e.macsr)
    ensures var r, v := Accumulate(e, op), e.acc[op.k] + Term(op);
            && (r.acc[op.k] == Nearest48(v) <==> -TWO63 <= v < TWO63)
            && (-TWO63 <= v < TWO63 ==> (Has(r.macsr, Pav(op.k)) <==> Has(e.macsr, Pav(op.k)) || !In48(v)))
  {
    hide Has, SetFlags, Wrap64, SignExtend48, SignExtend32, SignExtend40;
    var a, b := SignExtend32(op.rx), SignExtend32(op.ry);
    SignedRange(op.rx);
    SignedRange(op.ry);
    ProductRange(a, b);
    var p := a * b;
    HalfSmall(p);
    var t := if op.sf == 1 then 2 * p else if op.sf == 3 then p / 2 else p;
    assert Scaled(Product(false, op.rx, op.ry), op.sf) == Wrap64(t);
    Once(e.acc[op.k], p, t);
    var v := Wrap64(if op.sub then e.acc[op.k] - Wrap64(t) else e.acc[op.k] + Wrap64(t));
    var r := Confined(e.macsr, v);
    FlagSticky(e.macsr, op.k, op.k, !In48(v), Outgrown(e.macsr, r), r == 0, r < 0);
  }

  /** Wrapping twice is wrapping once, and turns a sum that does not fit to the other sign. */
  lemma Once(acc: int, p: int, t: int)
    requires In48(acc) && -0x4000_0000_0000_0000 <= p <= 0x4000_0000_0000_0000
    requires t == p || t == 2 * p || t == p / 2
    ensures Wrapped(acc + t, Wrap64(acc + Wrap64(t))) && Wrapped(acc - t, Wrap64(acc - Wrap64(t)))
  {
    WrapNear(t);
    assert Wrap64(t) == t || (t == TWO63 && Wrap64(t) == -TWO63);
    hide Wrap64, Wrapped;
    Nearly(acc + t);
    Nearly(acc - t);
    FarApart(acc);
  }

  lemma WrapNear(t: int)
    requires -TWO63 <= t <= TWO63
    ensures Wrap64(t) == if t == TWO63 then -TWO63 else t
  {}

  lemma Nearly(v: int)
    requires -TWO63 - TWO47 <= v <= TWO63 + TWO47
    ensures Wrapped(v, Wrap64(v))
  {}

  /** Adding 2^63 and taking it away come to the same. */
  lemma FarApart(acc: int)
    requires In48(acc)
    ensures Wrap64(acc + TWO63) == Wrap64(acc - TWO63)
  {}

  predicate Wrapped(v: int, w: int) {
    if v >= TWO63 then w < -TWO47 else if v < -TWO63 then w >= TWO47 else w == v
  }

  predicate UnsignedSaturating(m: bv32) { Has(m, MACSR_SU) && Has(m, MACSR_OMC) }

  lemma WrapsOnce(acc: int, p: int)
    requires In48(acc) && -TWO63 <= p < TWO63
    ensures Wrapped(acc + p, Wrap64(acc + p)) && Wrapped(acc - p, Wrap64(acc - p))
  {}

  /** The same in unsigned mode, for products that are small: the limits are those of a signed
      48-bit value there too. */
  lemma UnsignedSaturatesExactly(e: Emac, op: Op)
    requires Valid(e) && UnsignedSaturating(e.macsr) && Small(op)
    ensures var r, v := Accumulate(e, op), e.acc[op.k] + UnsignedTerm(op);
            && (r.acc[op.k] == Nearest48(v) <==> -TWO63 <= v < TWO63)
            && (-TWO63 <= v < TWO63 ==> (Has(r.macsr, Pav(op.k)) <==> Has(e.macsr, Pav(op.k)) || !In48(v)))
  {
    hide Has, SetFlags, Wrap64, SignExtend48, SignExtend32, SignExtend40, Product, Scaled, Small, Magnitude;
    var p := Scaled(Product(true, op.rx, op.ry), op.sf);
    UnsignedOperand(op);
    WrapsOnce(e.acc[op.k], p);
    var v := Wrap64(if op.sub then e.acc[op.k] - p else e.acc[op.k] + p);
    var r := Confined(e.macsr, v);
    FlagSticky(e.macsr, op.k, op.k, !In48(v), Outgrown(e.macsr, r), r == 0, r < 0);
  }

  /** The most negative operands, doubled, on an empty accumulator: 2^63 becomes the least value. */
  lemma SaturatesLow(e: Emac, k: Index)
    requires Valid(e) && SignedSaturating(e.macsr) && e.acc[k] == 0
    ensures var op := Op(k, 0x8000_0000, 0x8000_0000, 1, false);
      Term(op) == TWO63 && Accumulate(e, op).acc[k] == -TWO47
  {
    hide Has, SetFlags;
    var op := Op(k, 0x8000_0000, 0x8000_0000, 1, false);
    assert Product(false, op.rx, op.ry) == 0x4000_0000_0000_0000;
  }

  /** EV after a step: the result has left the low 32 bits, signed or unsigned as the mode has
      it, or the low 40 in fractional mode. */
  lemma ExtensionTells(e: Emac, op: Op)
    requires Valid(e)
    ensures var r := Accumulate(e, op);
            var v := r.acc[op.k];
      Has(r.macsr, MACSR_EV) <==>
        if Has(e.macsr, MACSR_FI) then !(-0x80_0000_0000 <= v < 0x80_0000_0000)
        else if Has(e.macsr, MACSR_SU) then !(0 <= v < TWO32)
        else !(-0x8000_0000 <= v < 0x8000_0000)
  {
    hide Has, SetFlags, Wrap64, SignExtend48, Product, Scaled;
    var p := Scaled(Product(Has(e.macsr, MACSR_SU), op.rx, op.ry), op.sf);
    var v := Wrap64(if op.sub then e.acc[op.k] - p else e.acc[op.k] + p);
    var r := Confined(e.macsr, v);
    FlagResult(e.macsr, Pav(op.k), !In48(v), Outgrown(e.macsr, r), r == 0, r < 0);
  }

  // ----- moving EMAC registers -----

  function Low32(a: int): u32 { a % TWO32 }
  function Ext16(a: int): int { a / TWO32 % TWO16 }

  /** acc_ext_pair: bits 47..32 of accumulators n and n + 1. */
  function ExtPair(e: Emac, n: int): u32
    requires Valid(e) && (n == 0 || n == 2)
  {
    Ext16(e.acc[n + 1]) * TWO16 + Ext16(e.acc[n])
  }

  function WithExt(a: int, ext: int): int { SignExtend48(ext * TWO32 + Low32(a)) }

  function SetExtPair(e: Emac, n: int, val: u32): (r: Emac)
    requires Valid(e) && (n == 0 || n == 2)
    ensures Valid(r)
  {
    e.(acc := e.acc[n := WithExt(e.acc[n], val % TWO16)][n + 1 := WithExt(e.acc[n + 1], val / TWO16)])
  }

  /** MOVE from an EMAC register: 0-3 accumulators, 4 MACSR, 5 ACCext01, 6 MASK, 7 ACCext23. */
  function ReadReg(e: Emac, reg: int): u32
    requires Valid(e) && 0 <= reg < 8
  {
    if reg < 4 then Low32(e.acc[reg])
    else if reg == 4 then (e.macsr as int)
    else if reg == 5 then ExtPair(e, 0)
    else if reg == 6 then e.mask
    else ExtPair(e, 2)
  }

  /** Loading an accumulator sets its extension from the mode and refreshes the flags. */
  function LoadFlags(m: bv32, pav: bv32, zero: bool, neg: bool): bv32 {
    var m1 := m & !(MACSR_N | MACSR_Z | MACSR_V | MACSR_EV | pav);
    var m2 := if zero then m1 | MACSR_Z else m1;
    if neg then m2 | MACSR_N else m2
  }

  function LoadedExt(m: bv32, val: u32): int {
    var neg := val >= 0x8000_0000;
    if Has(m, MACSR_FI) then (if neg then 0xff00 else 0)
    else if Has(m, MACSR_SU) then 0
    else (if neg then 0xffff else 0)
  }

  function WriteReg(e: Emac, reg: int, val: u32): (r: Emac)
    requires Valid(e) && 0 <= reg < 8
    ensures Valid(r)
  {
    if reg < 4 then
      var a := SignExtend48(LoadedExt(e.macsr, val) * TWO32 + val);
      Emac(e.acc[reg := a], LoadFlags(e.macsr, Pav(reg), a == 0, a < 0), e.mask)
    else if reg == 4 then e.(macsr := val as bv32)
    else if reg == 5 then SetExtPair(e, 0, val)
    else if reg == 6 then e.(mask := val)
    else SetExtPair(e, 2, val)
  }

  /** A loaded accumulator holds the operand as the mode reads it: two's complement, unsigned, or
      in fractional mode sign-extended above the low 40 bits; its overflow bit is cleared. */
  lemma LoadedValue(e: Emac, k: Index, val: u32)
    requires Valid(e)
    ensures var r := WriteReg(e, k, val);
            var neg := val >= 0x8000_0000;
      && r.acc[k] == (if Has(e.macsr, MACSR_FI) then (if neg then (val as int) - 0x100_0000_0000 else val)
                      else if Has(e.macsr, MACSR_SU) then val
                      else if neg then (val as int) - TWO32 else val)
      && !Has(r.macsr, Pav(k)) && !Has(r.macsr, MACSR_V) && !Has(r.macsr, MACSR_EV)
      && Has(r.macsr, MACSR_Z) == (r.acc[k] == 0) && Has(r.macsr, MACSR_N) == (r.acc[k] < 0)
  {
    var a := WriteReg(e, k, val).acc[k];
    LoadedFlags(e.macsr, Pav(k), a == 0, a < 0);
    hide Has, LoadFlags, Pav;
  }

  lemma LoadedFlags(m: bv32, pav: bv32, zero: bool, neg: bool)
    requires pav == 0x1000 || pav == 0x2000 || pav == 0x4000 || pav == 0x8000
    ensures var m' := LoadFlags(m, pav, zero, neg);
      && !Has(m', pav) && !Has(m', MACSR_V) && !Has(m', MACSR_EV)
      && Has(m', MACSR_Z) == zero && Has(m', MACSR_N) == neg
  {}

  function Save(e: Emac): (s: seq<u32>)
    requires Valid(e)
    ensures |s| == 8
  {
    [ReadReg(e, 0), ReadReg(e, 1), ReadReg(e, 2), ReadReg(e, 3),
     ReadReg(e, 5), ReadReg(e, 7), ReadReg(e, 6), ReadReg(e, 4)]
  }

  function Restore(e: Emac, s: seq<u32>): (r: Emac)
    requires Valid(e) && |s| == 8
    ensures Valid(r)
  {
    var e4 := WriteReg(WriteReg(WriteReg(WriteReg(e, 0, s[0]), 1, s[1]), 2, s[2]), 3, s[3]);
    WriteReg(WriteReg(WriteReg(WriteReg(e4, 5, s[4]), 7, s[5]), 6, s[6]), 4, s[7])
  }

  lemma Halves(a: int)
    requires In48(a)
    ensures 0 <= Ext16(a) < TWO16 && SignExtend48(Ext16(a) * TWO32 + Low32(a)) == a
  {}

  lemma LowKept(ext: int, val: u32)
    ensures Low32(SignExtend48(ext * TWO32 + val)) == val
  {}

  lemma Unpack(hi: int, lo: int)
    requires 0 <= hi < TWO16 && 0 <= lo < TWO16
    ensures (hi * TWO16 + lo) % TWO16 == lo && (hi * TWO16 + lo) / TWO16 == hi
  {}

  /** What the registers show of an accumulator: its low 32 bits in one, bits 47 to 32 in half
      of an extension word, the even accumulator in the lower half. */
  lemma PartsOfAccumulator(e: Emac, k: Index)
    requires Valid(e)
    ensures var pair := ReadReg(e, if k < 2 then 5 else 7);
            var ext := if k % 2 == 0 then pair % TWO16 else pair / TWO16;
      e.acc[k] == SignExtend48(ext * TWO32 + ReadReg(e, k))
  {
    var n := if k < 2 then 0 else 2;
    Halves(e.acc[n]);
    Halves(e.acc[n + 1]);
    Unpack(Ext16(e.acc[n + 1]), Ext16(e.acc[n]));
    hide Ext16, SignExtend48, Low32;
  }

  /** Loading the saved low halves puts them in place, whatever the mode made of the rest. */
  lemma LowsLoaded(e: Emac, s: seq<u32>)
    requires Valid(e) && |s| == 8
    ensures var e4 := WriteReg(WriteReg(WriteReg(WriteReg(e, 0, s[0]), 1, s[1]), 2, s[2]), 3, s[3]);
            forall k: Index :: Low32(e4.acc[k]) == s[k]
  {
    hide Has, LoadFlags, SignExtend48, Low32, LoadedExt;
    var e1 := WriteReg(e, 0, s[0]);
    var e2 := WriteReg(e1, 1, s[1]);
    var e3 := WriteReg(e2, 2, s[2]);
    LowKept(LoadedExt(e.macsr, s[0]), s[0]);
    LowKept(LoadedExt(e1.macsr, s[1]), s[1]);
    LowKept(LoadedExt(e2.macsr, s[2]), s[2]);
    LowKept(LoadedExt(e3.macsr, s[3]), s[3]);
  }

  /** Restoring the pair of extensions over the right low halves rebuilds both accumulators. */
  lemma ExtRestored(e: Emac, f: Emac, n: int)
    requires Valid(e) && Valid(f) && (n == 0 || n == 2)
    requires Low32(f.acc[n]) == Low32(e.acc[n]) && Low32(f.acc[n + 1]) == Low32(e.acc[n + 1])
    ensures var r := SetExtPair(f, n, ExtPair(e, n));
            && r.acc[n] == e.acc[n] && r.acc[n + 1] == e.acc[n + 1]
            && (forall k: Index :: k != n && k != n + 1 ==> r.acc[k] == f.acc[k])
  {
    hide SignExtend48, Low32, Ext16;
    Halves(e.acc[n]);
    Halves(e.acc[n + 1]);
    Unpack(Ext16(e.acc[n + 1]), Ext16(e.acc[n]));
  }

  /** Restoring a saved unit over any other state of the unit is the identity. */
  lemma SaveRestore(e: Emac, other: Emac)
    requires Valid(e) && Valid(other)
    ensures Restore(other, Save(e)) == e
  {
    hide Low32, Ext16, ExtPair, SetExtPair, LoadFlags, Has;
    var s := Save(e);
    LowsLoaded(other, s);
    var e4 := WriteReg(WriteReg(WriteReg(WriteReg(other, 0, s[0]), 1, s[1]), 2, s[2]), 3, s[3]);
    ExtRestored(e, e4, 0);
    var e5 := SetExtPair(e4, 0, s[4]);
    ExtRestored(e, e5, 2);
    var e6 := SetExtPair(e5, 2, s[5]);
    assert e6.acc[0] == e.acc[0] && e6.acc[1] == e.acc[1] && e6.acc[2] == e.acc[2] && e6.acc[3] == e.acc[3];
    assert e6.acc == e.acc;
    MacsrMoves(e.macsr);
  }

  lemma MacsrMoves(m: bv32)
    ensures (m as int) as bv32 == m
  {}

  /** What is read from a register of one unit and moved to any other reads the same there. */
  lemma MovedReads(e: Emac, reg: int, other: Emac)
    requires Valid(e) && Valid(other) && 0 <= reg < 8
    ensures ReadReg(WriteReg(other, reg, ReadReg(e, reg)), reg) == ReadReg(e, reg)
  {
    hide Has, LoadFlags, SignExtend48, Low32, LoadedExt, Ext16, Pav;
    var val := ReadReg(e, reg);
    if reg < 4 {
      LowKept(LoadedExt(other.macsr, val), val);
    } else if reg == 4 {
      MacsrMoves(e.macsr);
    } else if reg != 6 {
      var n := if reg == 5 then 0 else 2;
      Halves(e.acc[n]);
      Halves(e.acc[n + 1]);
      Unpack(Ext16(e.acc[n + 1]), Ext16(e.acc[n]));
      ExtKept(other.acc[n], Ext16(e.acc[n]));
      ExtKept(other.acc[n + 1], Ext16(e.acc[n + 1]));
    }
  }

  ghost predicate ReadsAnywhere(reg: int, val: u32)
    requires 0 <= reg < 8
  {
    forall other: Emac | Valid(other) :: ReadReg(WriteReg(other, reg, val), reg) == val
  }

  lemma MovesAnywhere(e: Emac, reg: int)
    requires Valid(e) && 0 <= reg < 8
    ensures ReadsAnywhere(reg, ReadReg(e, reg))
  {
    forall other: Emac | Valid(other)
      ensures ReadReg(WriteReg(other, reg, ReadReg(e, reg)), reg) == ReadReg(e, reg)
    {
      MovedReads(e, reg, other);
    }
  }

  lemma ExtKept(a: int, ext: int)
    requires 0 <= ext < TWO16
    ensures Ext16(WithExt(a, ext)) == ext
  {}

  // ----- in place -----

  type Register = r: int | 0 <= r < 8

  /** What another task may do with the unit. */
  datatype Deed = Mac(op: Op) | Load(reg: Register, val: u32)

  class Unit {
    const acc: array<int>
    var macsr: bv32
    var mask: u32

    constructor ()
      ensures acc.Length == 4 && View() == Emac([0, 0, 0, 0], 0, 0)
    {
      acc := new int[4](_ => 0);
      macsr, mask := 0, 0;
    }

    ghost function View(): Emac
      reads this, acc
    {
      Emac(acc[..], macsr, mask)
    }

    /** MAC.L and MSAC.L. */
    method MacLong(op: Op)
      requires acc.Length == 4 && Valid(View())
      modifies this`macsr, acc
      ensures View() == Accumulate(old(View()), op) && Valid(View())
    {
      hide Has, Pav, SignExtend32, SignExtend48, SignExtend40, Wrap64, Product, Scaled, Outgrown, Refreshed, Marked;
      var k := op.k;
      var p := Scaled(Product(Has(macsr, MACSR_SU), op.rx, op.ry), op.sf);
      var v := Wrap64(if op.sub then acc[k] - p else acc[k] + p);
      var pav := Pav(k);
      var r := v;
      var m := macsr;
      if v >= TWO47 || v < -TWO47 {
        m := Marked(m, pav);
        if Has(macsr, MACSR_OMC) {
          r := if v >= TWO47 then TWO47 - 1 else -TWO47;
        } else {
          r := SignExtend48(v);
        }
      }
      assert r == Confined(macsr, v);
      acc[k] := r;
      assert acc[..] == old(acc[..])[k := r];
      var ev := Outgrown(macsr, r);
      macsr := Refreshed(m, pav, ev, r == 0, r < 0);
    }

    /** MOVE Dn to an EMAC register. */
    method MoveTo(reg: int, val: u32)
      requires acc.Length == 4 && Valid(View()) && 0 <= reg < 8
      modifies this, acc
      ensures Valid(View()) && View() == WriteReg(old(View()), reg, val)
    {
      hide Has, Pav, SignExtend48, Low32, LoadedExt, LoadFlags;
      if reg < 4 {
        var a := SignExtend48(LoadedExt(macsr, val) * TWO32 + val);
        acc[reg] := a;
        macsr := LoadFlags(macsr, Pav(reg), a == 0, a < 0);
      } else if reg == 4 {
        macsr := val as bv32;
      } else if reg == 6 {
        mask := val;
      } else {
        var n := if reg == 5 then 0 else 2;
        acc[n] := WithExt(acc[n], val % TWO16);
        acc[n + 1] := WithExt(acc[n + 1], val / TWO16);
      }
      assert acc[..] == WriteReg(old(View()), reg, val).acc;
    }

    /** MOVE from an EMAC register to Dn: moved to any unit, the value reads the same there. */
    method MoveFrom(reg: int) returns (val: u32)
      requires acc.Length == 4 && Valid(View()) && 0 <= reg < 8
      ensures val == ReadReg(View(), reg)
      ensures ReadsAnywhere(reg, val)
    {
      hide ReadsAnywhere, Low32, Ext16;
      MovesAnywhere(View(), reg);
      if reg < 4 {
        val := Low32(acc[reg]);
      } else if reg == 4 {
        val := macsr as int;
      } else if reg == 6 {
        val := mask;
      } else {
        var n := if reg == 5 then 0 else 2;
        val := Ext16(acc[n + 1]) * TWO16 + Ext16(acc[n]);
      }
    }

    /** A task switch saves ACC0-3, both extension words, MASK and MACSR ... */
    method SaveAll() returns (s: seq<u32>)
      requires acc.Length == 4 && Valid(View())
      ensures s == Save(View())
    {
      hide ReadReg, ReadsAnywhere;
      var a0 := MoveFrom(0);
      var a1 := MoveFrom(1);
      var a2 := MoveFrom(2);
      var a3 := MoveFrom(3);
      var x01 := MoveFrom(5);
      var x23 := MoveFrom(7);
      var m := MoveFrom(6);
      var sr := MoveFrom(4);
      s := [a0, a1, a2, a3, x01, x23, m, sr];
    }

    /** ... and loads them back, whatever ran in between, to the very same unit. */
    method RestoreAll(s: seq<u32>, ghost saved: Emac)
      requires acc.Length == 4 && Valid(View()) && Valid(saved) && s == Save(saved)
      modifies this, acc
      ensures View() == saved
    {
      hide ReadReg, WriteReg;
      ghost var was := View();
      MoveTo(0, s[0]);
      MoveTo(1, s[1]);
      MoveTo(2, s[2]);
      MoveTo(3, s[3]);
      MoveTo(5, s[4]);
      MoveTo(7, s[5]);
      MoveTo(6, s[6]);
      MoveTo(4, s[7]);
      SaveRestore(saved, was);
    }

    /** A task switch: saved, any MACs and register loads of other tasks, loaded back. */
    method Switched(work: seq<Deed>)
      requires acc.Length == 4 && Valid(View())
      modifies this, acc
      ensures View() == old(View())
    {
      ghost var was := View();
      var s := SaveAll();
      for i := 0 to |work|
        invariant Valid(View())
      {
        match work[i] {
          case Mac(op) => MacLong(op);
          case Load(reg, val) => MoveTo(reg, val);
        }
      }
      RestoreAll(s, was);
    }
  }
}
