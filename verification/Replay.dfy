/** The receive-side replay window of nc_crypto: the highest accepted counter and a
    64-bit mask below it, against a plain set of accepted counters. */
module Replay {

  const TWO64 := 0x1_0000_0000_0000_0000
  type u64 = x: int | 0 <= x < TWO64

  function Pow2(n: nat): (p: int)
    ensures p >= 1
  {
    if n == 0 then 1 else 2 * Pow2(n - 1)
  }

  lemma Pow64()
    ensures Pow2(64) == TWO64
  {
    assert Pow2(8) == 0x100;
    PowSum(8, 8);
    PowSum(16, 16);
    PowSum(32, 32);
  }

  lemma {:induction false} PowSum(a: nat, b: nat)
    ensures Pow2(a + b) == Pow2(a) * Pow2(b)
  {
    if b == 0 {
      assert Pow2(b) == 1;
    } else {
      PowSum(a, b - 1);
      Regroup(Pow2(a), Pow2(b - 1));
    }
  }

  lemma Regroup(x: int, y: int)
    ensures 2 * (x * y) == x * (2 * y)
  {}

  /** Bit `d` of `w`. */
  predicate Bit(w: int, d: nat)
    requires w >= 0
  {
    if d == 0 then w % 2 == 1 else Bit(w / 2, d - 1)
  }

  function Doubled(w: nat, k: nat): nat {
    if k == 0 then w else 2 * Doubled(w, k - 1)
  }

  /** w << k on 64 bits. */
  function Shl(w: u64, k: nat): u64 { Doubled(w, k) % TWO64 }

  /** w | 1 << d. */
  function SetBit(w: u64, d: nat): u64
    requires d < 64
  {
    BitFits(w, d);
    if Bit(w, d) then w else w + Pow2(d)
  }

  // ----- bit facts -----

  lemma {:induction false} DoubledBits(w: nat, k: nat, d: nat)
    ensures Bit(Doubled(w, k), d) == (k <= d && Bit(w, d - k))
    decreases k
  {
    if k > 0 {
      var v := Doubled(w, k - 1);
      assert (2 * v) % 2 == 0 && (2 * v) / 2 == v;
      if d > 0 { DoubledBits(w, k - 1, d - 1); }
    }
  }

  /** Cutting to n bits leaves the lower bits. */
  lemma {:induction false} CutBits(v: nat, n: nat, d: nat)
    requires d < n
    ensures v % Pow2(n) >= 0 && Bit(v % Pow2(n), d) == Bit(v, d)
    decreases d
  {
    var m := Pow2(n - 1);
    HalfOfCut(v, m);
    if d > 0 { CutBits(v / 2, n - 1, d - 1); }
  }

  lemma HalfOfCut(v: nat, m: int)
    requires m >= 1
    ensures 0 <= v % (2 * m) && (v % (2 * m)) / 2 == (v / 2) % m && (v % (2 * m)) % 2 == v % 2
  {
    var q, r := v / (2 * m), v % (2 * m);
    assert v == (2 * m) * q + r;
    assert (2 * m) * q == 2 * (m * q);
    assert v / 2 == m * q + r / 2;
    Remainder(v / 2, m, q, r / 2);
  }

  lemma Remainder(x: int, m: int, q: int, r: int)
    requires m >= 1 && x == m * q + r && 0 <= r < m
    ensures x % m == r
  {
    assert x / m == q by {
      if x / m > q { Larger(m, x / m, q); } else if x / m < q { Larger(m, q, x / m); }
    }
  }

  lemma Larger(m: int, a: int, b: int)
    requires m >= 1 && a > b
    ensures m * a >= m * b + m
  {
    assert m * (a - b - 1) >= 0;
    assert m * (a - b - 1) == m * a - m * b - m;
  }

  lemma ShlBits(w: u64, k: nat, d: nat)
    requires d < 64
    ensures Bit(Shl(w, k), d) == (k <= d && Bit(w, d - k))
  {
    Pow64();
    CutBits(Doubled(w, k), 64, d);
    DoubledBits(w, k, d);
  }

  /** A clear bit leaves room to add its power below 2^64. */
  lemma {:induction false} RoomForBit(w: nat, n: nat, d: nat)
    requires w < Pow2(n) && d < n && !Bit(w, d)
    ensures w + Pow2(d) < Pow2(n)
    decreases d
  {
    assert Pow2(n) == 2 * Pow2(n - 1);
    if d == 0 {
      assert Pow2(0) == 1 && w % 2 == 0;
      hide Pow2, Bit;
    } else {
      assert Pow2(d) == 2 * Pow2(d - 1) && Bit(w, d) == Bit(w / 2, d - 1);
      hide Pow2, Bit;
      Halved(w, Pow2(n - 1), Pow2(d - 1));
      RoomForBit(w / 2, n - 1, d - 1);
    }
  }

  lemma Halved(w: nat, p: nat, q: nat)
    requires w < 2 * p
    ensures w / 2 < p && (w / 2 + q < p ==> w + 2 * q < 2 * p)
  {}

  lemma BitFits(w: u64, d: nat)
    requires d < 64
    ensures !Bit(w, d) ==> w + Pow2(d) < TWO64
  {
    Pow64();
    if !Bit(w, d) { RoomForBit(w, 64, d); }
  }

  lemma {:induction false} AddedBit(w: nat, d: nat, j: nat)
    requires !Bit(w, d)
    ensures Bit(w + Pow2(d), j) == (j == d || Bit(w, j))
    decreases d
  {
    if d == 0 {
      assert (w + 1) / 2 == w / 2;
    } else {
      var p := Pow2(d - 1);
      assert (w + 2 * p) % 2 == w % 2 && (w + 2 * p) / 2 == w / 2 + p;
      if j > 0 { AddedBit(w / 2, d - 1, j - 1); }
    }
  }

  lemma SetBits(w: u64, d: nat, j: nat)
    requires d < 64
    ensures Bit(SetBit(w, d), j) == (j == d || Bit(w, j))
  {
    if !Bit(w, d) { AddedBit(w, d, j); }
  }

  // ----- the window -----

  datatype Window = Window(max: u64, mask: u64)

  const EMPTY := Window(0, 0)

  /** replay_check_and_update. */
  function Check(s: Window, counter: u64): (r: (bool, Window)) {
    if counter == 0 then (false, s)
    else if counter > s.max then
      var shift := counter - s.max;
      (true, Window(counter, SetBit(if shift >= 64 then 0 else Shl(s.mask, shift), 0)))
    else
      var diff := s.max - counter;
      if diff >= 64 then (false, s)
      else if Bit(s.mask, diff) then (false, s)
      else (true, Window(s.max, SetBit(s.mask, diff)))
  }

  /** The reference: a set of accepted counters. A counter is taken when it is not zero,
      not taken before, and above the highest one less 64. */
  predicate Acceptable(taken: set<int>, highest: int, counter: int) {
    counter != 0 && counter !in taken && counter > highest - 64
  }

  /** The window stands for the set. */
  predicate Refines(s: Window, taken: set<int>) {
    && (forall c <- taken :: 0 < c <= s.max)
    && (s.max > 0 ==> s.max in taken)
    && (forall d :: 0 <= d < 64 ==> (Bit(s.mask, d) <==> (s.max as int) - d in taken))
  }

  lemma EmptyRefines()
    ensures Refines(EMPTY, {})
  {
    forall d | 0 <= d < 64 ensures !Bit(0, d) { NoBits(d); }
  }

  lemma {:induction false} NoBits(d: nat)
    ensures !Bit(0, d)
  {
    if d > 0 { NoBits(d - 1); }
  }

  /** One counter: the window decides as the set does and goes on standing for it. */
  lemma CheckRefines(s: Window, taken: set<int>, counter: u64)
    requires Refines(s, taken)
    ensures var (ok, s') := Check(s, counter);
            && (ok <==> Acceptable(taken, s.max, counter))
            && Refines(s', if ok then taken + {counter as int} else taken)
  {
    hide SetBit, Shl, Bit;
    if counter > s.max {
      var shift := counter - s.max;
      var base := if shift >= 64 then 0 else Shl(s.mask, shift);
      var taken' := taken + {counter as int};
      forall d | 0 <= d < 64 ensures Bit(SetBit(base, 0), d) <==> (counter as int) - d in taken' {
        SetBits(base, 0, d);
        if shift >= 64 { NoBits(d); } else { ShlBits(s.mask, shift, d); }
        if shift <= d { assert (counter as int) - d == (s.max as int) - (d - shift); }
      }
    } else if counter != 0 {
      var diff := s.max - counter;
      if diff < 64 {
        assert Bit(s.mask, diff) <==> (s.max as int) - diff in taken;
        if !Bit(s.mask, diff) {
          forall d | 0 <= d < 64
            ensures Bit(SetBit(s.mask, diff), d) <==> (s.max as int) - d in taken + {counter as int}
          {
            SetBits(s.mask, diff, d);
          }
        }
      }
    }
  }

  /** All counters in turn; the verdict of each. */
  function CheckAll(s: Window, cs: seq<u64>): (Window, seq<bool>) {
    if cs == [] then (s, [])
    else
      var (s1, oks) := CheckAll(s, cs[..|cs| - 1]);
      var (ok, s2) := Check(s1, cs[|cs| - 1]);
      (s2, oks + [ok])
  }

  /** The reference verdicts over the same counters. */
  function Reference(cs: seq<u64>): (r: (set<int>, int, seq<bool>)) {
    if cs == [] then ({}, 0, [])
    else
      var (taken, highest, oks) := Reference(cs[..|cs| - 1]);
      var c := cs[|cs| - 1];
      if Acceptable(taken, highest, c) then
        (taken + {c as int}, if c > highest then c else highest, oks + [true])
      else (taken, highest, oks + [false])
  }

  /** Over any sequence of counters the shifting mask and the plain set agree. */
  lemma {:induction false} WindowIsSet(cs: seq<u64>)
    ensures var (s, oks) := CheckAll(EMPTY, cs);
            var (taken, highest, oks') := Reference(cs);
            oks == oks' && s.max == highest && Refines(s, taken)
    decreases |cs|
  {
    hide Refines;
    if cs == [] {
      EmptyRefines();
    } else {
      var init, c := cs[..|cs| - 1], cs[|cs| - 1];
      WindowIsSet(init);
      CheckRefines(CheckAll(EMPTY, init).0, Reference(init).0, c);
    }
  }
}
