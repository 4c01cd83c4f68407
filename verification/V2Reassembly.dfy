/** Fragmentation is a round trip: the pieces of a message, in any order, repeated at will
    and mixed with any other traffic of the channel, are put together to exactly that
    message, and it is treated as if it had come whole. */
module V2Reassembly {
  import opened Bytes
  import opened Finite
  import opened V2Channel
  import opened V2Pool
  import opened V2Fragments
  import opened V2Receiver

  /** A piece of the message in question, a frame of any other number, or a read. */
  datatype Event =
    | Piece(idx: nat)
    | Other(num: u16, idx: nat, total: nat, data: Message)
    | Take(room: nat)

  predicate Meant(e: Event, num: u16, m: Message, fp: nat)
    requires fp > 0
  {
    match e
    case Piece(idx) => idx < Pieces(|m|, fp)
    case Other(n, _, _, _) => n != num
    case Take(_) => true
  }

  predicate AllMeant(es: seq<Event>, num: u16, m: Message, fp: nat)
    requires fp > 0
  {
    forall k :: 0 <= k < |es| ==> Meant(es[k], num, m, fp)
  }

  function Happen(p: Pool, ch: Chan, fp: nat, num: u16, m: Message, e: Event): (r: (Pool, Chan))
    requires Shaped(ch) && fp > 0 && 0 < |m| <= MAX_MSG && Meant(e, num, m, fp)
    ensures Shaped(r.1)
  {
    match e
    case Piece(idx) =>
      PieceShape(|m|, idx, fp);
      Data(p, ch, fp, num, idx, Pieces(|m|, fp), Cut(m, idx, fp))
    case Other(n, idx, total, data) => Data(p, ch, fp, n, idx, total, data)
    case Take(room) => var (a, b, _) := Read(p, ch, room); (a, b)
  }

  function Run(p: Pool, ch: Chan, fp: nat, num: u16, m: Message, es: seq<Event>): (r: (Pool, Chan))
    requires Shaped(ch) && fp > 0 && 0 < |m| <= MAX_MSG && AllMeant(es, num, m, fp)
    ensures Shaped(r.1)
  {
    if es == [] then (p, ch)
    else
      var (p1, c1) := Run(p, ch, fp, num, m, es[..|es| - 1]);
      Happen(p1, c1, fp, num, m, es[|es| - 1])
  }

  /** The pieces that came. */
  function Got(es: seq<Event>): set<nat> {
    if es == [] then {}
    else Got(es[..|es| - 1]) + if es[|es| - 1].Piece? then {es[|es| - 1].idx} else {}
  }

  /** A slot has exactly the pieces `got`. */
  predicate Holding(p: Pool, f: Frag, fp: nat, num: u16, m: Message, got: set<nat>) {
    f.active && f.num == num && f.mask == got && 0 <= f.buf < BUFS && Present(Buffer(p, f.buf), f, m, fp)
  }

  ghost predicate Collecting(p: Pool, ch: Chan, fp: nat, num: u16, m: Message, got: set<nat>) {
    && Tidy(ch) && (exists w :: Owns(p, ch, w))
    && FragFind(ch.frags, num, 0) < FRAG_SLOTS
    && Holding(p, ch.frags[FragFind(ch.frags, num, 0)], fp, num, m, got)
  }

  // ----- other traffic leaves the slot alone -----

  lemma FoundAt(fs: seq<Frag>, num: u16, i: nat, f: Frag)
    requires i < |fs| && f.active && f.num == num
    requires FragFind(fs, num, 0) == |fs| || FragFind(fs, num, 0) == i
    ensures FragFind(fs[i := f], num, 0) == i
  {
    assert fs[i := f][i] == f;
  }

  /** A frame changes only slots of its own number, idle ones and ones it empties. */
  lemma FragsOfOthers(p: Pool, ch: Chan, fp: nat, n: u16, idx: nat, total: nat, data: Message, num: u16)
    requires Shaped(ch) && n != num && FragFind(ch.frags, num, 0) < FRAG_SLOTS
    ensures var i := FragFind(ch.frags, num, 0);
            var c1 := Data(p, ch, fp, n, idx, total, data).1;
      FragFind(c1.frags, num, 0) == i && c1.frags[i] == ch.frags[i] && FragSlot(p, ch, n, total).2 != i
  {
    hide Enqueue, Arrive, Fragment, FragSlot;
    var c2 := Data(p, ch, fp, n, idx, total, data).1;
    var j := FragSlot(p, ch, n, total).2;
    SlotApart(p, ch, n, total, num);
    FragmentFrags(p, ch, fp, n, idx, total, data);
    hide Data;
    FindStays(ch.frags, c2.frags, num, j);
  }

  lemma SlotApart(p: Pool, ch: Chan, n: u16, total: nat, num: u16)
    requires Shaped(ch) && n != num && FragFind(ch.frags, num, 0) < FRAG_SLOTS
    ensures FragSlot(p, ch, n, total).2 != FragFind(ch.frags, num, 0)
  {}

  /** A fragment changes one slot, which then has its number or is empty. */
  lemma FragmentFrags(p: Pool, ch: Chan, fp: nat, n: u16, idx: nat, total: nat, data: Message)
    requires Shaped(ch)
    ensures var j := FragSlot(p, ch, n, total).2;
            var c1 := Fragment(p, ch, fp, n, idx, total, data).1;
      && (forall k :: 0 <= k < FRAG_SLOTS && k != j ==> c1.frags[k] == ch.frags[k])
      && (j < FRAG_SLOTS ==> c1.frags[j] == ch.frags[j] || c1.frags[j].num == n || !c1.frags[j].active)
  {
    SlotFrags(p, ch, n, total);
    hide FragSlot, HandOn, Compact, Fresh, Offset, FragWrite, Copy, Inside;
  }

  lemma SlotFrags(p: Pool, ch: Chan, n: u16, total: nat)
    requires Shaped(ch)
    ensures var (_, c1, j) := FragSlot(p, ch, n, total);
      forall k :: 0 <= k < FRAG_SLOTS && k != j ==> c1.frags[k] == ch.frags[k]
  {}

  lemma FindStays(fs: seq<Frag>, gs: seq<Frag>, num: u16, j: nat)
    requires |fs| == |gs| && FragFind(fs, num, 0) < |fs| && j != FragFind(fs, num, 0)
    requires forall k :: 0 <= k < |fs| && k != j ==> gs[k] == fs[k]
    requires j < |fs| ==> gs[j] == fs[j] || gs[j].num != num || !gs[j].active
    ensures FragFind(gs, num, 0) == FragFind(fs, num, 0)
  {
    var i := FragFind(fs, num, 0);
    assert gs[i] == fs[i];
  }

  lemma OtherKeeps(p: Pool, ch: Chan, fp: nat, num: u16, m: Message, got: set<nat>, e: Event)
    requires Collecting(p, ch, fp, num, m, got) && e.Other? && e.num != num
    ensures var (p1, c1) := Data(p, ch, fp, e.num, e.idx, e.total, e.data); Collecting(p1, c1, fp, num, m, got)
  {
    var w :| Owns(p, ch, w);
    var i := FragFind(ch.frags, num, 0);
    var (p1, c1) := Data(p, ch, fp, e.num, e.idx, e.total, e.data);
    FragsOfOthers(p, ch, fp, e.num, e.idx, e.total, e.data, num);
    assert At(ch, FragAt(i)) == ch.frags[i].buf && At(ch, FragAt(i)) != NOBUF;
    assert FragAt(i) !in Touched(p, ch, e.num, e.total);
    hide Data, Owns, Tidy, Present, Aside, FragFind, FragSlot, Touched;
    var w' := DataOwns(p, ch, fp, e.num, e.idx, e.total, e.data, w);
  }

  lemma TakeKeeps(p: Pool, ch: Chan, fp: nat, num: u16, m: Message, got: set<nat>, room: nat)
    requires Collecting(p, ch, fp, num, m, got)
    ensures var (p1, c1, _) := Read(p, ch, room); Collecting(p1, c1, fp, num, m, got)
  {
    var w :| Owns(p, ch, w);
    var i := FragFind(ch.frags, num, 0);
    assert At(ch, FragAt(i)) == ch.frags[i].buf && At(ch, FragAt(i)) != NOBUF;
    hide Read, Owns, Tidy, Present, Aside, FragFind;
    var w' := ReadOwns(p, ch, room, w);
  }

  // ----- the pieces -----

  /** The first piece opens a slot with nothing in it. */
  lemma SlotOpens(p: Pool, ch: Chan, fp: nat, num: u16, m: Message)
    requires Tidy(ch) && (exists w :: Owns(p, ch, w)) && Admissible(fp) && 0 < |m| <= MAX_MSG
    requires FragFind(ch.frags, num, 0) == FRAG_SLOTS && FragIdle(ch.frags, 0) < FRAG_SLOTS && p.free != []
    ensures var (p1, c1, i) := FragSlot(p, ch, num, Pieces(|m|, fp));
      Collecting(p1, c1, fp, num, m, {}) && i == FragFind(c1.frags, num, 0)
  {
    PiecesFit(|m|, fp);
    var w :| Owns(p, ch, w);
    var b := p.free[|p.free| - 1];
    assert 0 <= b < BUFS;
    var (p1, c1, i) := FragSlot(p, ch, num, Pieces(|m|, fp));
    assert |Buffer(p1, c1.frags[i].buf)| == MAX_MSG;
    var w' := FragSlotOwns(p, ch, num, Pieces(|m|, fp), w);
    hide Present, Owns, Tidy, Aside, Undisturbed;
    EmptyKeeps(Buffer(p1, c1.frags[i].buf), num, c1.frags[i].buf, m, fp);
    hide Pieces;
    FoundAt(ch.frags, num, i, c1.frags[i]);
  }

  lemma HoldingAdds(p: Pool, f: Frag, fp: nat, num: u16, m: Message, got: set<nat>, idx: nat)
    requires Holding(p, f, fp, num, m, got) && PoolShaped(p) && idx < Pieces(|m|, fp) && idx !in got
             && Offset(idx, fp) <= |m|
    ensures |f.offsets| == MAX_FRAGS
    ensures var d := Cut(m, idx, fp); var f1 := FragWrite(f, idx, |d|);
      && Fresh(f, idx, |d|, fp) && f1.buf == f.buf
      && Holding(Copy(p, f1.buf, Offset(idx, fp), d), f1, fp, num, m, got + {idx})
      && (f1.have == f1.total <==> got + {idx} == Below(Pieces(|m|, fp)))
  {
    StoreKeeps(Buffer(p, f.buf), f, m, fp, idx);
    var d := Cut(m, idx, fp);
    hide Cut, Offset, Blit;
    var f1 := FragWrite(f, idx, |d|);
    var p2 := Copy(p, f.buf, Offset(idx, fp), d);
    assert Buffer(p2, f.buf) == Blit(Buffer(p, f.buf), Offset(idx, fp), d);
    CountIs(p2, f1, fp, num, m, got + {idx});
    hide Present;
  }

  lemma CountIs(p: Pool, f: Frag, fp: nat, num: u16, m: Message, got: set<nat>)
    requires Holding(p, f, fp, num, m, got)
    ensures f.have == f.total <==> got == Below(Pieces(|m|, fp))
  {
    if f.have == f.total {
      assert forall i :: i in got ==> HasPiece(Buffer(p, f.buf), f, m, fp, i);
      FullSet(got, f.total);
    }
  }

  /** Pool and channel with piece `idx` stored in its slot. */
  function Stored(p: Pool, ch: Chan, fp: nat, num: u16, m: Message, idx: nat): (r: (Pool, Chan))
    requires Shaped(ch) && FragFind(ch.frags, num, 0) < FRAG_SLOTS && Offset(idx, fp) <= |m|
    ensures Shaped(r.1)
  {
    var i := FragFind(ch.frags, num, 0);
    var d := Cut(m, idx, fp);
    var f := FragWrite(ch.frags[i], idx, |d|);
    (Copy(p, f.buf, Offset(idx, fp), d), ch.(frags := ch.frags[i := f]))
  }

  lemma StoredHolds(p: Pool, ch: Chan, fp: nat, num: u16, m: Message, got: set<nat>, idx: nat)
    requires Collecting(p, ch, fp, num, m, got) && idx < Pieces(|m|, fp) && idx !in got && Offset(idx, fp) <= |m|
    ensures var (p1, c1) := Stored(p, ch, fp, num, m, idx);
      && Collecting(p1, c1, fp, num, m, got + {idx})
      && FragFind(c1.frags, num, 0) == FragFind(ch.frags, num, 0)
  {
    var w :| Owns(p, ch, w);
    assert PoolShaped(p);
    var i := FragFind(ch.frags, num, 0);
    HoldingAdds(p, ch.frags[i], fp, num, m, got, idx);
    var d := Cut(m, idx, fp);
    var f := FragWrite(ch.frags[i], idx, |d|);
    hide Holding, Cut, Pieces, Fresh, Owns, Undisturbed, Aside, Offset;
    FoundAt(ch.frags, num, i, f);
    FragWriteOwns(p, ch, i, f, Offset(idx, fp), d, w);
  }

  /** The slot is there: a piece already held changes nothing, a missing one is stored, and
      the last one finishes the message. */
  lemma FragmentIs(p0: Pool, ch0: Chan, p: Pool, ch: Chan, fp: nat, num: u16, m: Message, got: set<nat>, idx: nat)
    requires fp > 0 && Shaped(ch0) && FragSlot(p0, ch0, num, Pieces(|m|, fp)) == (p, ch, FragFind(ch.frags, num, 0))
    requires Collecting(p, ch, fp, num, m, got) && idx < Pieces(|m|, fp) && Offset(idx, fp) <= |m|
    ensures Fragment(p0, ch0, fp, num, idx, Pieces(|m|, fp), Cut(m, idx, fp)) ==
      (if idx in got then (p, ch)
       else if got + {idx} == Below(Pieces(|m|, fp)) then
         FragDone(Stored(p, ch, fp, num, m, idx).0, Stored(p, ch, fp, num, m, idx).1, fp, FragFind(ch.frags, num, 0))
       else Stored(p, ch, fp, num, m, idx))
  {
    assert PoolShaped(p) by { var w :| Owns(p, ch, w); }
    var i := FragFind(ch.frags, num, 0);
    hide Tidy, Owns, FragDone, FragSlot, Copy, FragFind;
    if idx in got {
      assert !Fresh(ch.frags[i], idx, |Cut(m, idx, fp)|, fp);
    } else {
      HoldingAdds(p, ch.frags[i], fp, num, m, got, idx);
    }
    hide Holding, Cut, Pieces, Offset, Fresh, FragWrite;
  }

  /** A finished slot hands on the message and is freed; nothing is moved or overrun. */
  lemma DoneIs(p: Pool, ch: Chan, fp: nat, num: u16, m: Message, i: nat)
    requires Shaped(ch) && PoolShaped(p) && i < FRAG_SLOTS && fp > 0
    requires Holding(p, ch.frags[i], fp, num, m, Below(Pieces(|m|, fp)))
    ensures var (p2, c2) := HandOn(p, ch, num, m);
      FragDone(p, ch, fp, i) == (PoolPut(p2, ch.frags[i].buf), c2.(frags := ch.frags[i := NoFrag()]))
  {
    var f := ch.frags[i];
    var b := Buffer(p, f.buf);
    CountIs(p, f, fp, num, m, Below(Pieces(|m|, fp)));
    CompactIs(b, f, m, fp);
    CompactLeaves(b, f, m, fp);
    FullIsInside(b, f, m, fp);
    CopySelf(p, f.buf);
    hide Compact, Inside, HandOn, Present, Pieces;
  }

  /** The acknowledgement fields aside. */
  predicate SameBut(c: Chan, d: Chan) { c == d.(needAck := c.needAck, ackSeq := c.ackSeq) }

  lemma PieceArrives(p: Pool, ch: Chan, fp: nat, num: u16, m: Message, got: set<nat>, idx: nat)
    requires Collecting(p, ch, fp, num, m, got) && 0 < |m| <= MAX_MSG && 1 < Pieces(|m|, fp)
    requires idx < Pieces(|m|, fp) && Offset(idx, fp) <= |m| && got + {idx} != Below(Pieces(|m|, fp))
    ensures var (p1, c1) := Data(p, ch, fp, num, idx, Pieces(|m|, fp), Cut(m, idx, fp));
      Collecting(p1, c1, fp, num, m, got + {idx})
  {
    hide Fragment, FragSlot, Holding, Cut, Stored, FragFind, Owns, Tidy, Offset, Pieces, FragDone, Arrive, Enqueue;
    CollectingIs(p, ch, fp, num, m, got);
    FoundAgain(p, ch, num, Pieces(|m|, fp));
    FragmentIs(p, ch, p, ch, fp, num, m, got, idx);
    if idx in got { assert got + {idx} == got; } else { StoredHolds(p, ch, fp, num, m, got, idx); }
    var (p1, c1) := Fragment(p, ch, fp, num, idx, Pieces(|m|, fp), Cut(m, idx, fp));
    assert Collecting(p1, c1, fp, num, m, got + {idx});
    hide Collecting;
    AcksKeep(p1, c1, Data(p, ch, fp, num, idx, Pieces(|m|, fp), Cut(m, idx, fp)).1, fp, num, m, got + {idx});
  }

  lemma AcksKeep(p: Pool, ch: Chan, ch': Chan, fp: nat, num: u16, m: Message, got: set<nat>)
    requires Collecting(p, ch, fp, num, m, got) && SameBut(ch', ch)
    ensures Collecting(p, ch', fp, num, m, got)
  {
    var w :| Owns(p, ch, w);
    Relabel(p, ch, w, ch');
    hide Holding, Owns, Tidy;
  }

  /** The first piece of a message of several. */
  lemma FirstArrives(p: Pool, ch: Chan, fp: nat, num: u16, m: Message, idx: nat)
    requires Tidy(ch) && (exists w :: Owns(p, ch, w)) && Admissible(fp) && 0 < |m| <= MAX_MSG && 1 < Pieces(|m|, fp)
    requires FragFind(ch.frags, num, 0) == FRAG_SLOTS && FragIdle(ch.frags, 0) < FRAG_SLOTS && p.free != []
    requires idx < Pieces(|m|, fp) && Offset(idx, fp) <= |m|
    ensures var (p1, c1) := Data(p, ch, fp, num, idx, Pieces(|m|, fp), Cut(m, idx, fp));
            Collecting(p1, c1, fp, num, m, {idx})
  {
    assert Shaped(ch);
    hide Fragment, FragSlot, Holding, Cut, Stored, Tidy, Owns, FragFind, FragIdle, Offset, FragDone, Arrive, Enqueue;
    SlotOpens(p, ch, fp, num, m);
    var (p1, c1, i) := FragSlot(p, ch, num, Pieces(|m|, fp));
    FragmentIs(p, ch, p1, c1, fp, num, m, {}, idx);
    assert {} + {idx} == {idx};
    assert 0 in Below(Pieces(|m|, fp)) && 1 in Below(Pieces(|m|, fp)) && (0 !in {idx} || 1 !in {idx});
    StoredHolds(p1, c1, fp, num, m, {}, idx);
    var (p2, c2) := Fragment(p, ch, fp, num, idx, Pieces(|m|, fp), Cut(m, idx, fp));
    assert Collecting(p2, c2, fp, num, m, {idx});
    hide Collecting, Pieces;
    AcksKeep(p2, c2, Data(p, ch, fp, num, idx, Pieces(|m|, fp), Cut(m, idx, fp)).1, fp, num, m, {idx});
  }

  /** While a piece is missing the slot has exactly the pieces that came, whatever else the
      channel receives or the application reads in between. */
  lemma {:induction false} Collects(p: Pool, ch: Chan, fp: nat, num: u16, m: Message, got: set<nat>, es: seq<Event>)
    requires Collecting(p, ch, fp, num, m, got) && 0 < |m| <= MAX_MSG && fp > 0 && 1 < Pieces(|m|, fp)
    requires AllMeant(es, num, m, fp)
             && (exists missing :: missing in Below(Pieces(|m|, fp)) && missing !in got + Got(es))
    ensures var (p1, c1) := Run(p, ch, fp, num, m, es); Collecting(p1, c1, fp, num, m, got + Got(es))
  {
    if es == [] {
      assert got + Got(es) == got;
    } else {
      var n := |es| - 1;
      var pre, e := es[..n], es[n];
      var missing :| missing in Below(Pieces(|m|, fp)) && missing !in got + Got(es);
      assert missing !in got + Got(pre);
      Collects(p, ch, fp, num, m, got, pre);
      var (p1, c1) := Run(p, ch, fp, num, m, pre);
      hide Collecting, Data, Read, Pieces;
      match e
      case Piece(idx) =>
        PieceShape(|m|, idx, fp);
        assert got + Got(pre) + {idx} == got + Got(es);
        PieceArrives(p1, c1, fp, num, m, got + Got(pre), idx);
      case Other(_, _, _, _) =>
        assert got + Got(pre) == got + Got(es);
        OtherKeeps(p1, c1, fp, num, m, got + Got(pre), e);
      case Take(room) =>
        assert got + Got(pre) == got + Got(es);
        TakeKeeps(p1, c1, fp, num, m, got + Got(pre), room);
    }
  }

  /** The piece that completes the message has the effect of the whole message on queue,
      reorder slots and numbering, and frees the slot. */
  lemma Completes(p: Pool, ch: Chan, fp: nat, num: u16, m: Message, got: set<nat>, last: nat)
    requires Collecting(p, ch, fp, num, m, got) && 0 < |m| <= MAX_MSG && 1 < Pieces(|m|, fp)
    requires last < Pieces(|m|, fp) && Offset(last, fp) <= |m| && last !in got && got + {last} == Below(Pieces(|m|, fp))
    ensures var (p0, c0) := Stored(p, ch, fp, num, m, last);
            var i := FragFind(ch.frags, num, 0);
            var (p1, c1) := HandOn(p0, c0, num, m);
            var (p2, c2) := Data(p, ch, fp, num, last, Pieces(|m|, fp), Cut(m, last, fp));
      p2 == PoolPut(p1, ch.frags[i].buf) && SameBut(c2, c1.(frags := ch.frags[i := NoFrag()]))
  {
    hide HandOn, FragDone, Pieces, Cut, Offset, Holding, Fragment, Owns, Tidy, FragSlot, FragFind, Arrive, Enqueue;
    CollectingIs(p, ch, fp, num, m, got);
    FoundAgain(p, ch, num, Pieces(|m|, fp));
    FragmentIs(p, ch, p, ch, fp, num, m, got, last);
    StoredHolds(p, ch, fp, num, m, got, last);
    var (p0, c0) := Stored(p, ch, fp, num, m, last);
    var i := FragFind(ch.frags, num, 0);
    CollectingIs(p0, c0, fp, num, m, got + {last});
    DoneIs(p0, c0, fp, num, m, i);
    assert c0.frags[i := NoFrag()] == ch.frags[i := NoFrag()] && c0.frags[i].buf == ch.frags[i].buf;
  }

  lemma CollectingIs(p: Pool, ch: Chan, fp: nat, num: u16, m: Message, got: set<nat>)
    requires Collecting(p, ch, fp, num, m, got)
    ensures Shaped(ch) && PoolShaped(p) && fp > 0
  {}

  lemma FoundAgain(p: Pool, ch: Chan, num: u16, total: nat)
    requires Shaped(ch) && FragFind(ch.frags, num, 0) < FRAG_SLOTS
    ensures FragSlot(p, ch, num, total) == (p, ch, FragFind(ch.frags, num, 0))
  {}

  // ----- what a whole message does -----

  predicate Begins(a: seq<Message>, b: seq<Message>) { |a| <= |b| && b[..|a|] == a }

  lemma BeginsChain(a: seq<Message>, b: seq<Message>, c: seq<Message>)
    requires Begins(a, b) && Begins(b, c)
    ensures Begins(a, c)
  {
    assert c[..|b|][..|a|] == c[..|a|];
  }

  lemma {:induction false} DeliverBegins(p: Pool, ch: Chan)
    requires Shaped(ch)
    ensures Begins(ch.arrived, Deliver(p, ch).1.arrived)
    decreases Waiting(ch.reorder)
  {
    if Awaited(ch) {
      var (p1, c1) := DeliverOne(p, ch);
      assert Begins(ch.arrived, c1.arrived);
      WaitingClears(ch.reorder, ch.recvSeq % SLOTS, c1.reorder[ch.recvSeq % SLOTS]);
      hide DeliverOne;
      DeliverBegins(p1, c1);
      BeginsChain(ch.arrived, c1.arrived, Deliver(p1, c1).1.arrived);
    }
  }

  /** Room for one message: a place in the queue and a buffer. */
  predicate Room(p: Pool, ch: Chan)
    requires Shaped(ch)
  {
    NextSlot(ch.rqTail) != ch.rqHead && p.free != [] && 0 <= p.free[|p.free| - 1] < |p.store|
  }

  /** In its turn it is queued; ahead of its turn it waits in its slot; on an unreliable
      channel it is queued at once. */
  lemma WholeMessage(p: Pool, ch: Chan, num: u16, m: Message)
    requires Shaped(ch) && PoolShaped(p) && |m| <= MAX_MSG
    ensures var (p1, c1) := HandOn(p, ch, num, m);
      && (ch.kind == UNRELIABLE && Room(p, ch) ==> c1.arrived == ch.arrived + [m])
      && (ch.kind != UNRELIABLE && num == ch.recvSeq && Room(p, ch) ==> Begins(ch.arrived + [m], c1.arrived))
      && (ch.kind != UNRELIABLE && 0 < Diff16(num, ch.recvSeq) < SLOTS && !ch.reorder[num % SLOTS].valid
          && Room(p, ch) ==>
            var r := c1.reorder[num % SLOTS]; r.valid && r.num == num && Content(p1, r.buf, r.len) == m)
  {
    if ch.kind != UNRELIABLE && num == ch.recvSeq && Room(p, ch) {
      var (p1, c1) := Accept(p, ch, m);
      assert c1.arrived == ch.arrived + [m];
      hide Accept, Deliver;
      DeliverBegins(p1, c1);
    } else if ch.kind != UNRELIABLE && Room(p, ch) {
      BlitStart(p.store[p.free[|p.free| - 1]], m);
    }
  }

  /** So does a message that comes whole in one DATA frame. */
  lemma WholeArrives(p: Pool, ch: Chan, fp: nat, num: u16, idx: nat, total: nat, m: Message)
    requires Shaped(ch) && PoolShaped(p) && |m| <= MAX_MSG && total <= 1 && Room(p, ch)
    ensures var (p1, c1) := Data(p, ch, fp, num, idx, total, m);
      && (ch.kind == UNRELIABLE ==> c1.arrived == ch.arrived + [m] && c1.needAck == ch.needAck)
      && (ch.kind != UNRELIABLE ==> c1.needAck)
      && (ch.kind != UNRELIABLE && num == ch.recvSeq ==> Begins(ch.arrived + [m], c1.arrived))
      && (ch.kind != UNRELIABLE && 0 < Diff16(num, ch.recvSeq) < SLOTS && !ch.reorder[num % SLOTS].valid ==>
            var r := c1.reorder[num % SLOTS]; r.valid && r.num == num && Content(p1, r.buf, r.len) == m)
  {
    WholeMessage(p, ch, num, m);
    hide Arrive, Begins, Content;
  }

  /** Fragments survive any order, repeats and other traffic: if there is a slot and a buffer
      for the first of them, then nothing happens to the message until the last missing
      one, and that one delivers exactly the message, in turn, ahead of its turn or on an
      unreliable channel alike. */
  lemma Reassembles(p: Pool, ch: Chan, fp: nat, num: u16, m: Message, first: nat, es: seq<Event>, last: nat)
    requires Tidy(ch) && (exists w :: Owns(p, ch, w)) && Admissible(fp) && 0 < |m| <= MAX_MSG && 1 < Pieces(|m|, fp)
    requires FragFind(ch.frags, num, 0) == FRAG_SLOTS && FragIdle(ch.frags, 0) < FRAG_SLOTS && p.free != []
    requires first < Pieces(|m|, fp) && last < Pieces(|m|, fp) && AllMeant(es, num, m, fp)
    requires last !in {first} + Got(es) && {first} + Got(es) + {last} == Below(Pieces(|m|, fp))
    ensures var (p0, c0) := Happen(p, ch, fp, num, m, Piece(first));
            var (p1, c1) := Run(p0, c0, fp, num, m, es);
            var (p2, c2) := Happen(p1, c1, fp, num, m, Piece(last));
      && Collecting(p1, c1, fp, num, m, {first} + Got(es))
      && (c1.kind == UNRELIABLE && Room(p1, c1) ==> c2.arrived == c1.arrived + [m])
      && (c1.kind != UNRELIABLE && num == c1.recvSeq && Room(p1, c1) ==> Begins(c1.arrived + [m], c2.arrived))
      && (c1.kind != UNRELIABLE && 0 < Diff16(num, c1.recvSeq) < SLOTS && !c1.reorder[num % SLOTS].valid
          && Room(p1, c1) ==>
            var r := c2.reorder[num % SLOTS]; r.valid && r.num == num && Content(p2, r.buf, r.len) == m)
  {
    PieceShape(|m|, first, fp);
    PieceShape(|m|, last, fp);
    FirstArrives(p, ch, fp, num, m, first);
    var (p0, c0) := Happen(p, ch, fp, num, m, Piece(first));
    assert last in Below(Pieces(|m|, fp));
    hide Collecting, Run, Data, Pieces, Cut, Offset;
    Collects(p0, c0, fp, num, m, {first}, es);
    var (p1, c1) := Run(p0, c0, fp, num, m, es);
    LastDelivers(p1, c1, fp, num, m, {first} + Got(es), last);
  }

  lemma LastDelivers(p: Pool, ch: Chan, fp: nat, num: u16, m: Message, got: set<nat>, last: nat)
    requires Collecting(p, ch, fp, num, m, got) && 0 < |m| <= MAX_MSG && 1 < Pieces(|m|, fp)
    requires last < Pieces(|m|, fp) && Offset(last, fp) <= |m| && last !in got && got + {last} == Below(Pieces(|m|, fp))
    ensures var (p2, c2) := Data(p, ch, fp, num, last, Pieces(|m|, fp), Cut(m, last, fp));
      && (ch.kind == UNRELIABLE && Room(p, ch) ==> c2.arrived == ch.arrived + [m])
      && (ch.kind != UNRELIABLE && num == ch.recvSeq && Room(p, ch) ==> Begins(ch.arrived + [m], c2.arrived))
      && (ch.kind != UNRELIABLE && 0 < Diff16(num, ch.recvSeq) < SLOTS && !ch.reorder[num % SLOTS].valid
          && Room(p, ch) ==>
            var r := c2.reorder[num % SLOTS]; r.valid && r.num == num && Content(p2, r.buf, r.len) == m)
  {
    Completes(p, ch, fp, num, m, got, last);
    StoredHolds(p, ch, fp, num, m, got, last);
    var (p0, c0) := Stored(p, ch, fp, num, m, last);
    assert PoolShaped(p0) by { var w :| Owns(p0, c0, w); }
    assert Room(p0, c0) == Room(p, ch) by { assert p0.free == p.free && |p0.store| == |p.store|; }
    hide Collecting, Data, HandOn, Room, Cut, Pieces, Offset, FragFind;
    WholeMessage(p0, c0, num, m);
  }
}
