/** Cutting a message into fragments and putting it together again. */
module V2Fragments {
  import opened Bytes
  import opened Finite
  import opened V2Channel

  /** ceil(2048 / fp) <= 32. */
  predicate Admissible(fp: nat) { fp >= 64 }

  lemma AdmissibleMeans(fp: nat)
    requires fp > 0
    ensures Admissible(fp) <==> Pieces(MAX_MSG, fp) <= MAX_FRAGS
  {
    if fp >= 64 {
      QuotientBound(MAX_MSG, fp, 32);
    } else {
      var q := Pieces(MAX_MSG, fp);
      if q <= 32 {
        QuotientUp(MAX_MSG, fp, 32);
        assert false;
      }
    }
  }

  lemma QuotientBound(n: nat, fp: nat, q: nat)
    requires fp > 0 && n <= fp * q
    ensures Pieces(n, fp) <= q
  {
    var r := (n + fp - 1) / fp;
    if r > q {
      Product(fp, q + 1, r);
      assert false;
    }
  }

  lemma QuotientUp(n: nat, fp: nat, q: nat)
    requires fp > 0 && Pieces(n, fp) <= q
    ensures n <= fp * q
  {
    var r := (n + fp - 1) / fp;
    Product(fp, r, q);
  }

  lemma Product(a: nat, b: nat, c: nat)
    requires b <= c
    ensures a * b <= a * c
  {}

  /** Where fragment `i` of a message ends. */
  function End(n: nat, i: nat, fp: nat): nat { if n < Offset(i + 1, fp) then n else Offset(i + 1, fp) }

  /** Fragment `i`. */
  function Cut(m: Message, i: nat, fp: nat): Message
    requires Offset(i, fp) <= |m|
  {
    m[Offset(i, fp)..End(|m|, i, fp)]
  }

  lemma OffsetNext(i: nat, fp: nat)
    ensures Offset(i + 1, fp) == Offset(i, fp) + fp
  {}

  lemma OffsetOrder(i: nat, k: nat, fp: nat)
    requires i <= k
    ensures Offset(i, fp) <= Offset(k, fp)
  {
    Product(fp, i, k);
  }

  lemma PieceBounds(n: nat, fp: nat)
    requires fp > 0
    ensures Offset(Pieces(n, fp), fp) <= n + fp - 1 < Offset(Pieces(n, fp), fp) + fp
  {}

  /** Every fragment but the last is full, and none is empty. */
  lemma PieceShape(n: nat, i: nat, fp: nat)
    requires fp > 0 && 0 < n <= MAX_MSG && i < Pieces(n, fp)
    ensures Offset(i, fp) < n && Offset(i, fp) < End(n, i, fp) <= MAX_MSG
    ensures i + 1 < Pieces(n, fp) ==> End(n, i, fp) == Offset(i + 1, fp)
    ensures i + 1 == Pieces(n, fp) ==> End(n, i, fp) == n
    ensures End(n, i, fp) <= Offset(i + 1, fp) == Offset(i, fp) + fp && End(n, i, fp) <= n
  {
    PieceBounds(n, fp);
    var q := Pieces(n, fp);
    OffsetNext(i, fp);
    OffsetOrder(i + 1, q, fp);
    if i + 1 < q {
      OffsetNext(i + 1, fp);
      OffsetOrder(i + 2, q, fp);
    }
    hide Offset, Pieces;
  }

  /** What the compaction loop is for: the pieces at multiples of `fp`, joined. */
  function Joined(s: seq<u8>, fp: nat, sizes: seq<nat>, i: nat): seq<u8>
    requires i <= |sizes|
  {
    if i == 0 then [] else Joined(s, fp, sizes, i - 1) + Part(s, Offset(i - 1, fp), sizes[i - 1])
  }

  predicate Spaced(s: seq<u8>, fp: nat, sizes: seq<nat>, total: nat) {
    total <= |sizes| && forall k :: 0 <= k < total ==> sizes[k] <= fp && Offset(k, fp) + sizes[k] <= |s|
  }

  /** One turn of the compaction loop. */
  lemma CompactTurn(s: seq<u8>, fp: nat, sizes: seq<nat>, total: nat, i: nat, pos: nat)
    requires i < total <= |sizes|
    ensures Compact(s, fp, sizes, total, i, pos)
         == Compact(if pos == Offset(i, fp) then s else Blit(s, pos, Part(s, Offset(i, fp), sizes[i])), fp, sizes,
             total, i + 1, pos + sizes[i])
  {}

  lemma CompactEnds(s: seq<u8>, fp: nat, sizes: seq<nat>, total: nat, pos: nat)
    ensures Compact(s, fp, sizes, total, total, pos) == (s, pos)
  {}

  lemma SpacedAt(s: seq<u8>, fp: nat, sizes: seq<nat>, total: nat, i: nat)
    requires Spaced(s, fp, sizes, total)
    ensures total <= |sizes| && (i < total ==> sizes[i] <= fp && Offset(i, fp) + sizes[i] <= |s|)
  {}

  lemma JoinedNext(s: seq<u8>, fp: nat, sizes: seq<nat>, i: nat)
    requires i < |sizes|
    ensures Joined(s, fp, sizes, i + 1) == Joined(s, fp, sizes, i) + Part(s, Offset(i, fp), sizes[i])
  {}

  /** The loop invariant: what lies before `pos` is joined, what is still to move is untouched. */
  lemma {:induction false} CompactLoop(s0: seq<u8>, s: seq<u8>, fp: nat, sizes: seq<nat>, total: nat, i: nat, pos: nat)
    requires Spaced(s0, fp, sizes, total) && |s| == |s0| && i <= total
    requires pos <= Offset(i, fp) && pos <= |s| && s[..pos] == Joined(s0, fp, sizes, i)
    requires Same(s0, s, Offset(i, fp))
    ensures var (r, n) := Compact(s, fp, sizes, total, i, pos); n <= |s| && r[..n] == Joined(s0, fp, sizes, total)
    decreases total - i
  {
    hide Offset, Blit, Part, Joined, Same, Compact, Spaced;
    SpacedAt(s0, fp, sizes, total, i);
    if i == total {
      CompactEnds(s, fp, sizes, total, pos);
    } else {
      var n, at := sizes[i], Offset(i, fp);
      OffsetNext(i, fp);
      var s1 := if pos == at then s else Blit(s, pos, Part(s, at, n));
      MoveDown(s0, s, at, n, pos);
      JoinedNext(s0, fp, sizes, i);
      SameLater(s0, s1, at + n, Offset(i + 1, fp));
      CompactTurn(s, fp, sizes, total, i, pos);
      CompactLoop(s0, s1, fp, sizes, total, i + 1, pos + n);
    }
  }

  /** `s` still has the bytes of `s0` from `at` on. */
  predicate Same(s0: seq<u8>, s: seq<u8>, at: nat) {
    |s| == |s0| && forall x :: at <= x < |s| ==> s[x] == s0[x]
  }

  lemma SameLater(s0: seq<u8>, s: seq<u8>, at: nat, later: nat)
    requires Same(s0, s, at) && at <= later
    ensures Same(s0, s, later)
  {}

  lemma MoveDown(s0: seq<u8>, s: seq<u8>, at: nat, n: nat, pos: nat)
    requires Same(s0, s, at) && pos <= at && at + n <= |s|
    ensures var s1 := if pos == at then s else Blit(s, pos, Part(s, at, n));
      && s1[..pos + n] == s[..pos] + Part(s0, at, n)
      && Same(s0, s1, at + n)
  {
    assert Part(s, at, n) == Part(s0, at, n);
  }

  lemma CompactJoins(s: seq<u8>, fp: nat, sizes: seq<nat>, total: nat)
    requires Spaced(s, fp, sizes, total)
    ensures var (r, n) := Compact(s, fp, sizes, total, 0, 0); Part(r, 0, n) == Joined(s, fp, sizes, total)
  {
    CompactLoop(s, s, fp, sizes, total, 0, 0);
  }

  /** The bits set are the fragments present, each in its place. */
  predicate Present(s: seq<u8>, f: Frag, m: Message, fp: nat) {
    && fp > 0 && 0 < |m| <= MAX_MSG && f.total == Pieces(|m|, fp) <= MAX_FRAGS && |f.offsets| == MAX_FRAGS
       && |s| == MAX_MSG
    && f.have == |f.mask|
    && (forall i :: i in f.mask ==> HasPiece(s, f, m, fp, i))
  }

  predicate HasPiece(s: seq<u8>, f: Frag, m: Message, fp: nat, i: nat) {
    i < f.total <= |f.offsets| && Offset(i, fp) <= |m| && f.offsets[i] == End(|m|, i, fp) - Offset(i, fp)
        && Part(s, Offset(i, fp), f.offsets[i]) == Cut(m, i, fp)
  }

  lemma {:induction false} JoinedIs(s: seq<u8>, f: Frag, m: Message, fp: nat, i: nat)
    requires Present(s, f, m, fp) && i <= f.total && forall k :: 0 <= k < f.total ==> HasPiece(s, f, m, fp, k)
    ensures Joined(s, fp, f.offsets, i) == m[..if i == 0 then 0 else End(|m|, i - 1, fp)]
  {
    assert Offset(0, fp) == 0;
    hide Offset, Pieces;
    if i > 0 {
      JoinedIs(s, f, m, fp, i - 1);
      PieceShape(|m|, i - 1, fp);
      assert HasPiece(s, f, m, fp, i - 1);
      if i > 1 { PieceShape(|m|, i - 2, fp); }
      hide Present;
      assert m[..End(|m|, i - 1, fp)] == m[..Offset(i - 1, fp)] + Cut(m, i - 1, fp);
    }
  }

  /** A full set of fragments has as many bytes as the message. */
  lemma {:induction false} SumIs(s: seq<u8>, f: Frag, m: Message, fp: nat, i: nat)
    requires Present(s, f, m, fp) && i <= f.total && forall k :: 0 <= k < f.total ==> HasPiece(s, f, m, fp, k)
    ensures Sum(f.offsets, i) == if i == 0 then 0 else End(|m|, i - 1, fp)
  {
    assert Offset(0, fp) == 0;
    hide Offset, Pieces;
    if i > 0 {
      SumIs(s, f, m, fp, i - 1);
      PieceShape(|m|, i - 1, fp);
      assert HasPiece(s, f, m, fp, i - 1);
      if i > 1 { PieceShape(|m|, i - 2, fp); }
      hide Present;
    }
  }

  lemma FullIsInside(s: seq<u8>, f: Frag, m: Message, fp: nat)
    requires Present(s, f, m, fp) && f.have == f.total
    ensures Inside(f)
  {
    FullSet(f.mask, f.total);
    assert forall k :: 0 <= k < f.total ==> HasPiece(s, f, m, fp, k) by {
      forall k | 0 <= k < f.total ensures HasPiece(s, f, m, fp, k) { assert k in f.mask; }
    }
    SumIs(s, f, m, fp, f.total);
    PieceShape(|m|, f.total - 1, fp);
    hide Present, HasPiece;
  }

  /** A full set of fragments compacts to the message. */
  lemma CompactIs(s: seq<u8>, f: Frag, m: Message, fp: nat)
    requires Present(s, f, m, fp) && f.have == f.total
    ensures var (r, n) := Compact(s, fp, f.offsets, f.total, 0, 0); Part(r, 0, n) == m
  {
    FullSet(f.mask, f.total);
    forall k | 0 <= k < f.total ensures HasPiece(s, f, m, fp, k) && f.offsets[k] <= fp
        && Offset(k, fp) + f.offsets[k] <= MAX_MSG {
      assert k in f.mask;
      PieceShape(|m|, k, fp);
      assert Offset(k + 1, fp) == Offset(k, fp) + fp;
    }
    CompactJoins(s, fp, f.offsets, f.total);
    JoinedIs(s, f, m, fp, f.total);
    PieceShape(|m|, f.total - 1, fp);
    assert m[..|m|] == m;
  }

  /** Storing a fragment that was missing. */
  lemma StoreKeeps(s: seq<u8>, f: Frag, m: Message, fp: nat, i: nat)
    requires Present(s, f, m, fp) && i < f.total && i !in f.mask
    requires Offset(i, fp) <= |m|
    ensures Offset(i, fp) + |Cut(m, i, fp)| <= MAX_MSG
    ensures Present(Blit(s, Offset(i, fp), Cut(m, i, fp)), FragWrite(f, i, |Cut(m, i, fp)|), m, fp)
  {
    var d := Cut(m, i, fp);
    PieceShape(|m|, i, fp);
    var s1, f1 := Blit(s, Offset(i, fp), d), FragWrite(f, i, |d|);
    assert Part(s1, Offset(i, fp), |d|) == d;
    forall k | k in f1.mask ensures HasPiece(s1, f1, m, fp, k) {
      if k != i {
        assert HasPiece(s, f, m, fp, k);
        Apart(s, f, m, fp, i, k);
      }
    }
  }

  /** Fragments do not overlap. */
  lemma Apart(s: seq<u8>, f: Frag, m: Message, fp: nat, i: nat, k: nat)
    requires Present(s, f, m, fp) && i < f.total && k in f.mask && k != i && Offset(i, fp) <= |m|
    ensures k < |f.offsets|
    ensures Part(Blit(s, Offset(i, fp), Cut(m, i, fp)), Offset(k, fp), f.offsets[k])
            == Part(s, Offset(k, fp), f.offsets[k])
  {
    assert HasPiece(s, f, m, fp, k);
    PieceShape(|m|, i, fp);
    PieceShape(|m|, k, fp);
    if k < i { OffsetOrder(k + 1, i, fp); } else { OffsetOrder(i + 1, k, fp); }
    hide Offset, End, Present, Pieces;
    BlitApart(s, Offset(i, fp), Cut(m, i, fp), Offset(k, fp), f.offsets[k]);
  }

  lemma BlitApart(s: seq<u8>, at: nat, d: seq<u8>, from: nat, n: nat)
    requires from + n <= at || at + |d| <= from
    ensures Part(Blit(s, at, d), from, n) == Part(s, from, n)
  {}

  /** A new slot has no fragments yet. */
  lemma EmptyKeeps(s: seq<u8>, num: u16, b: int, m: Message, fp: nat)
    requires |s| == MAX_MSG && fp > 0 && 0 < |m| <= MAX_MSG && Pieces(|m|, fp) <= MAX_FRAGS
    ensures Present(s, Frag(num, Pieces(|m|, fp), 0, {}, b, Repeat(0, MAX_FRAGS), true), m, fp)
  {}

  /** Full fragments need no moving. */
  lemma {:induction false} CompactStill(s: seq<u8>, fp: nat, sizes: seq<nat>, total: nat, i: nat)
    requires total <= |sizes| && forall k :: 0 <= k < total - 1 ==> sizes[k] == fp
    ensures Compact(s, fp, sizes, total, i, Offset(i, fp)).0 == s
    decreases total - i
  {
    if i + 1 < total {
      OffsetNext(i, fp);
      CompactStill(s, fp, sizes, total, i + 1);
    }
  }

  lemma CompactLeaves(s: seq<u8>, f: Frag, m: Message, fp: nat)
    requires Present(s, f, m, fp) && f.have == f.total
    ensures Compact(s, fp, f.offsets, f.total, 0, 0).0 == s
  {
    FullSet(f.mask, f.total);
    forall k | 0 <= k < f.total - 1 ensures f.offsets[k] == fp {
      assert k in f.mask;
      FullPiece(s, f, m, fp, k);
    }
    assert Offset(0, fp) == 0;
    hide Present, Offset;
    CompactStill(s, fp, f.offsets, f.total, 0);
  }

  lemma FullPiece(s: seq<u8>, f: Frag, m: Message, fp: nat, k: nat)
    requires Present(s, f, m, fp) && k in f.mask && k + 1 < f.total
    ensures k < |f.offsets| && f.offsets[k] == fp
  {
    assert HasPiece(s, f, m, fp, k);
    PieceShape(|m|, k, fp);
  }

  /** A message within the limit has an admissible number of fragments, at least one. */
  lemma PiecesFit(n: nat, fp: nat)
    requires Admissible(fp) && 0 < n <= MAX_MSG
    ensures 1 <= Pieces(n, fp) <= MAX_FRAGS
  {
    QuotientBound(n, fp, 32);
    PieceBounds(n, fp);
    assert Offset(0, fp) == 0;
  }

  // ----- when compaction stays inside its buffer -----

  /** Before turn i the compaction loop stands at the sum of the sizes so far. */
  lemma {:induction false} CompactStands(s: seq<u8>, fp: nat, sizes: seq<nat>, total: nat, i: nat)
    requires i <= total <= |sizes|
    ensures Compact(s, fp, sizes, total, i, Sum(sizes, i)).1 == Sum(sizes, total)
    decreases total - i
  {
    if i < total {
      CompactTurn(s, fp, sizes, total, i, Sum(sizes, i));
      var at := Offset(i, fp);
      CompactStands(if Sum(sizes, i) == at then s else Blit(s, Sum(sizes, i), Part(s, at, sizes[i])), fp, sizes,
          total, i + 1);
    }
  }

  /** Each fragment passed its bounds check. */
  predicate Placed(fp: nat, sizes: seq<nat>, total: nat) {
    total <= |sizes| && forall i :: 0 <= i < total ==> Offset(i, fp) + sizes[i] <= MAX_MSG
  }

  /** Every memmove of the loop ends inside the buffer. */
  predicate MovesInside(fp: nat, sizes: seq<nat>, total: nat)
    requires total <= |sizes|
  {
    forall i :: 0 <= i < total && Sum(sizes, i) != Offset(i, fp) ==> Sum(sizes, i) + sizes[i] <= MAX_MSG
  }

  lemma {:induction false} SumGrows(sizes: seq<nat>, i: nat, n: nat)
    requires i <= n <= |sizes|
    ensures Sum(sizes, i) <= Sum(sizes, n)
  {
    if i < n { SumGrows(sizes, i, n - 1); }
  }

  /** Fragments each of which passed its bounds check are moved inside the buffer exactly
      when together they have at most 2048 bytes. */
  lemma InsideExactly(fp: nat, sizes: seq<nat>, total: nat)
    requires Placed(fp, sizes, total)
    ensures MovesInside(fp, sizes, total) <==> Sum(sizes, total) <= MAX_MSG
  {
    hide Offset;
    if total > 0 { assert Offset(total - 1, fp) + sizes[total - 1] <= MAX_MSG; }
    if Sum(sizes, total) <= MAX_MSG {
      forall i | 0 <= i < total ensures Sum(sizes, i) + sizes[i] <= MAX_MSG {
        SumGrows(sizes, i + 1, total);
      }
    }
  }

  /** Two fragments that pass their checks and do not fit: at the default MTU the first has
      2048 bytes, the second 863, and the loop moves the second to offset 2048. */
  lemma OversizedFragments(num: u16, b: int)
    ensures var f0 := Frag(num, 2, 0, {}, b, Repeat(0, MAX_FRAGS), true);
            var f1 := FragWrite(f0, 0, 2048);
            var f2 := FragWrite(f1, 1, 863);
      && Fresh(f0, 0, 2048, 1200 - OVERHEAD) && Fresh(f1, 1, 863, 1200 - OVERHEAD) && f2.have == f2.total
      && !Inside(f2) && !MovesInside(1200 - OVERHEAD, f2.offsets, f2.total)
  {
    var f0 := Frag(num, 2, 0, {}, b, Repeat(0, MAX_FRAGS), true);
    var f1 := FragWrite(f0, 0, 2048);
    var f2 := FragWrite(f1, 1, 863);
    assert f2.offsets[0] == 2048 && f2.offsets[1] == 863;
    assert Sum(f2.offsets, 0) == 0 && Sum(f2.offsets, 1) == 2048 && Sum(f2.offsets, 2) == 2911;
    assert Offset(1, 1185) == 1185;
  }

  /** Fragments no longer than the fragment size always fit. */
  lemma {:induction false} ShortFits(fp: nat, sizes: seq<nat>, n: nat)
    requires n <= |sizes| && forall i :: 0 <= i < n ==> sizes[i] <= fp && Offset(i, fp) + sizes[i] <= MAX_MSG
    ensures Sum(sizes, n) <= MAX_MSG && Sum(sizes, n) <= Offset(n, fp)
  {
    if n > 0 {
      ShortFits(fp, sizes, n - 1);
      OffsetNext(n - 1, fp);
    }
  }
}
