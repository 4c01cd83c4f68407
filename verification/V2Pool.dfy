/** Conservation of message buffers: whatever a channel does, each buffer is exactly once
    on the free stack or in a slot. */
module V2Pool {
  import opened Bytes
  import opened V2Channel

  /** The slots of a channel that can own a buffer. */
  datatype Place = OutAt(i: nat) | QueueAt(i: nat) | HeldAt(i: nat) | FragAt(i: nat)

  /** Who has a buffer, seen from one channel: the free stack at an index, one of the
      channel's own slots, or some other channel. */
  datatype Owner = Free(at: nat) | Mine(place: Place) | Other

  function At(ch: Chan, pl: Place): int
    requires Shaped(ch)
  {
    match pl
    case OutAt(i) => if i < SLOTS then ch.out[i].buf else NOBUF
    case QueueAt(i) => if i < SLOTS then ch.rq[i].buf else NOBUF
    case HeldAt(i) => if i < SLOTS then ch.reorder[i].buf else NOBUF
    case FragAt(i) => if i < FRAG_SLOTS then ch.frags[i].buf else NOBUF
  }

  predicate PoolShaped(p: Pool) {
    && |p.store| == BUFS
    && forall b :: 0 <= b < BUFS ==> |p.store[b]| == MAX_MSG
  }

  predicate FreeOwned(p: Pool, w: seq<Owner>)
    requires |w| == BUFS
  {
    && (forall k :: 0 <= k < |p.free| ==> 0 <= p.free[k] < BUFS && w[p.free[k]] == Free(k))
    && (forall b :: 0 <= b < BUFS && w[b].Free? ==> w[b].at < |p.free| && p.free[w[b].at] == b)
  }

  ghost predicate SlotsOwned(ch: Chan, w: seq<Owner>)
    requires Shaped(ch) && |w| == BUFS
  {
    && (forall pl :: At(ch, pl) != NOBUF ==> 0 <= At(ch, pl) < BUFS && w[At(ch, pl)] == Mine(pl))
    && (forall b :: 0 <= b < BUFS && w[b].Mine? ==> At(ch, w[b].place) == b)
  }

  /** `w` gives every buffer its one owner. */
  ghost predicate Owns(p: Pool, ch: Chan, w: seq<Owner>) {
    |w| == BUFS && PoolShaped(p) && Shaped(ch) && FreeOwned(p, w) && SlotsOwned(ch, w)
  }

  predicate InRing(i: nat, head: nat, tail: nat)
    requires i < SLOTS && head < SLOTS && tail < SLOTS
  {
    Distance(head, i) < Distance(head, tail)
  }

  predicate TidyOut(ch: Chan)
    requires Shaped(ch)
  {
    forall i :: 0 <= i < SLOTS ==>
      (ch.out[i].active <==> ch.out[i].buf != NOBUF) && ch.out[i].len <= MAX_MSG
      && (ch.out[i].active ==> InRing(i, ch.outHead, ch.outTail))
  }

  predicate TidyQueue(ch: Chan)
    requires Shaped(ch)
  {
    forall i :: 0 <= i < SLOTS ==>
      (InRing(i, ch.rqHead, ch.rqTail) <==> ch.rq[i].buf != NOBUF) && ch.rq[i].len <= MAX_MSG
  }

  predicate TidyHeld(ch: Chan)
    requires Shaped(ch)
  {
    forall i :: 0 <= i < SLOTS ==> (ch.reorder[i].valid <==> ch.reorder[i].buf != NOBUF) && ch.reorder[i].len <= MAX_MSG
  }

  predicate TidyFrags(ch: Chan)
    requires Shaped(ch)
  {
    forall i :: 0 <= i < FRAG_SLOTS ==> (ch.frags[i].active <==> ch.frags[i].buf != NOBUF)
  }

  /** A slot in use has a buffer and a slot not in use has none. */
  predicate Tidy(ch: Chan) {
    Shaped(ch) && TidyOut(ch) && TidyQueue(ch) && TidyHeld(ch) && TidyFrags(ch)
  }

  /** No other channel notices. */
  predicate Aside(p: Pool, w: seq<Owner>, p': Pool, w': seq<Owner>) {
    && |w| == |w'| == BUFS && PoolShaped(p) && PoolShaped(p')
    && (forall b :: 0 <= b < BUFS ==> (w'[b] == Other <==> w[b] == Other))
    && (forall b :: 0 <= b < BUFS && w[b] == Other ==> p'.store[b] == p.store[b])
  }

  /** Every slot in use, except perhaps `but`, keeps its buffer and the bytes in it. */
  ghost predicate Undisturbed(p: Pool, ch: Chan, p': Pool, ch': Chan, but: set<Place>)
  {
    Shaped(ch) && Shaped(ch') &&
    forall pl :: At(ch, pl) != NOBUF && pl !in but ==>
        At(ch', pl) == At(ch, pl) && Buffer(p', At(ch, pl)) == Buffer(p, At(ch, pl))
  }

  // ----- the three moves -----

  /** A buffer goes from the free stack into an empty slot and is written. */
  lemma Take(p: Pool, ch: Chan, w: seq<Owner>, p': Pool, ch': Chan, pl: Place) returns (w': seq<Owner>)
    requires Owns(p, ch, w) && Shaped(ch') && PoolShaped(p') && p.free != []
    requires p'.free == p.free[..|p.free| - 1]
    requires At(ch, pl) == NOBUF && At(ch', pl) == p.free[|p.free| - 1]
    requires forall q :: q != pl ==> At(ch', q) == At(ch, q)
    requires forall b :: 0 <= b < BUFS && b != At(ch', pl) ==> p'.store[b] == p.store[b]
    ensures Owns(p', ch', w') && Aside(p, w, p', w') && Undisturbed(p, ch, p', ch', {})
    ensures 0 <= At(ch', pl) < BUFS
  {
    var b := p.free[|p.free| - 1];
    w' := w[b := Mine(pl)];
  }

  /** A slot gives its buffer back. */
  lemma Give(p: Pool, ch: Chan, w: seq<Owner>, p': Pool, ch': Chan, pl: Place) returns (w': seq<Owner>)
    requires Owns(p, ch, w) && Shaped(ch')
    requires At(ch, pl) != NOBUF && At(ch', pl) == NOBUF
    requires p' == PoolPut(p, At(ch, pl))
    requires forall q :: q != pl ==> At(ch', q) == At(ch, q)
    ensures Owns(p', ch', w') && Aside(p, w, p', w') && Undisturbed(p, ch, p', ch', {pl})
  {
    var b := At(ch, pl);
    w' := w[b := Free(|p.free|)];
    assert forall k :: 0 <= k < |p.free| ==> p'.free[k] == p.free[k];
  }

  /** A slot's own buffer is written. */
  lemma Scribble(p: Pool, ch: Chan, w: seq<Owner>, p': Pool, ch': Chan, pl: Place)
    requires Owns(p, ch, w) && Shaped(ch') && PoolShaped(p') && p'.free == p.free
    requires At(ch, pl) != NOBUF
    requires forall q :: At(ch', q) == At(ch, q)
    requires forall b :: 0 <= b < BUFS && b != At(ch, pl) ==> p'.store[b] == p.store[b]
    ensures Owns(p', ch', w) && Aside(p, w, p', w) && Undisturbed(p, ch, p', ch', {pl})
  {}

  lemma AsideChain(p: Pool, w: seq<Owner>, p1: Pool, w1: seq<Owner>, p2: Pool, w2: seq<Owner>)
    requires Aside(p, w, p1, w1) && Aside(p1, w1, p2, w2)
    ensures Aside(p, w, p2, w2)
  {}

  lemma UndisturbedChain(p: Pool, ch: Chan, p1: Pool, c1: Chan, p2: Pool, c2: Chan, but: set<Place>, but': set<Place>)
    requires Undisturbed(p, ch, p1, c1, but) && Undisturbed(p1, c1, p2, c2, but')
    ensures Undisturbed(p, ch, p2, c2, but + but')
  {}

  // ----- receiving -----

  lemma RingGrows(head: nat, tail: nat, i: nat)
    requires head < SLOTS && tail < SLOTS && i < SLOTS && NextSlot(tail) != head
    ensures InRing(i, head, NextSlot(tail)) <==> InRing(i, head, tail) || i == tail
    ensures !InRing(tail, head, tail)
  {}

  lemma RingShrinks(head: nat, tail: nat, i: nat)
    requires head < SLOTS && tail < SLOTS && i < SLOTS && head != tail
    ensures InRing(i, NextSlot(head), tail) <==> InRing(i, head, tail) && i != head
    ensures InRing(head, head, tail)
  {}

  lemma BlitStart(s: seq<u8>, data: seq<u8>)
    requires |data| <= |s|
    ensures Part(Blit(s, 0, data), 0, |data|) == data
  {}

  /** A step of one channel: ownership, tidiness and what it left alone. */
  ghost predicate Step(p: Pool, ch: Chan, w: seq<Owner>, p': Pool, ch': Chan, w': seq<Owner>, but: set<Place>) {
    Owns(p', ch', w') && Tidy(ch') && Aside(p, w, p', w') && Undisturbed(p, ch, p', ch', but)
  }

  lemma StepChain(p: Pool, ch: Chan, w: seq<Owner>, p1: Pool, c1: Chan, w1: seq<Owner>, p2: Pool, c2: Chan,
      w2: seq<Owner>,
                  but: set<Place>, but': set<Place>)
    requires Step(p, ch, w, p1, c1, w1, but) && Step(p1, c1, w1, p2, c2, w2, but')
    ensures Step(p, ch, w, p2, c2, w2, but + but')
  {
    AsideChain(p, w, p1, w1, p2, w2);
    UndisturbedChain(p, ch, p1, c1, p2, c2, but, but');
  }

  lemma EnqueueOwns(p: Pool, ch: Chan, data: Message, w: seq<Owner>) returns (w': seq<Owner>)
    requires Owns(p, ch, w) && Tidy(ch)
    ensures var (p1, c1, ok) := Enqueue(p, ch, data);
      && Step(p, ch, w, p1, c1, w', {})
      && (ok ==> c1.rq[ch.rqTail].len == |data| && Content(p1, c1.rq[ch.rqTail].buf, |data|) == data)
  {
    var (p1, c1, ok) := Enqueue(p, ch, data);
    w' := w;
    if ok {
      EnqueueShape(p, ch, data);
      hide Enqueue;
      w' := EnqueueSlot(p, ch, data, w, p1, c1);
    }
  }

  lemma EnqueueShape(p: Pool, ch: Chan, data: Message)
    requires Shaped(ch)
    ensures var (p1, c1, ok) := Enqueue(p, ch, data);
      ok ==>
        && p.free != [] && |data| <= MAX_MSG && NextSlot(ch.rqTail) != ch.rqHead
        && p1 == Copy(PoolGet(p).0, p.free[|p.free| - 1], 0, data)
        && c1 == ch.(rq := ch.rq[ch.rqTail := Entry(p.free[|p.free| - 1], |data|)], rqTail := NextSlot(ch.rqTail),
                     recvBuffered := c1.recvBuffered, arrived := c1.arrived)
  {}

  lemma EnqueueSlot(p: Pool, ch: Chan, data: Message, w: seq<Owner>, p1: Pool, c1: Chan) returns (w': seq<Owner>)
    requires Owns(p, ch, w) && Tidy(ch) && p.free != [] && |data| <= MAX_MSG && NextSlot(ch.rqTail) != ch.rqHead
    requires p1 == Copy(PoolGet(p).0, p.free[|p.free| - 1], 0, data)
    requires c1 == ch.(rq := ch.rq[ch.rqTail := Entry(p.free[|p.free| - 1], |data|)], rqTail := NextSlot(ch.rqTail),
                       recvBuffered := c1.recvBuffered, arrived := c1.arrived)
    ensures Step(p, ch, w, p1, c1, w', {}) && Content(p1, c1.rq[ch.rqTail].buf, |data|) == data
  {
    forall i | 0 <= i < SLOTS ensures InRing(i, ch.rqHead, c1.rqTail) <==>
        InRing(i, ch.rqHead, ch.rqTail) || i == ch.rqTail {
      RingGrows(ch.rqHead, ch.rqTail, i);
    }
    RingGrows(ch.rqHead, ch.rqTail, ch.rqTail);
    hide InRing;
    assert TidyQueue(c1);
    BlitStart(p.store[p.free[|p.free| - 1]], data);
    w' := Take(p, ch, w, p1, c1, QueueAt(ch.rqTail));
  }

  /** Fields that own nothing may change freely. */
  lemma Relabel(p: Pool, ch: Chan, w: seq<Owner>, ch': Chan)
    requires Owns(p, ch, w) && Tidy(ch)
    requires ch'.out == ch.out && ch'.outHead == ch.outHead && ch'.outTail == ch.outTail
    requires ch'.rq == ch.rq && ch'.rqHead == ch.rqHead && ch'.rqTail == ch.rqTail
    requires ch'.reorder == ch.reorder && ch'.frags == ch.frags
    ensures Step(p, ch, w, p, ch', w, {})
  {
    assert forall pl :: At(ch', pl) == At(ch, pl);
  }

  lemma AcceptOwns(p: Pool, ch: Chan, data: Message, w: seq<Owner>) returns (w': seq<Owner>)
    requires Owns(p, ch, w) && Tidy(ch)
    ensures var (p1, c1) := Accept(p, ch, data); Step(p, ch, w, p1, c1, w', {})
  {
    var (p1, c1, ok) := Enqueue(p, ch, data);
    w' := EnqueueOwns(p, ch, data, w);
    var (_, c2) := Accept(p, ch, data);
    Relabel(p1, c1, w', c2);
    StepChain(p, ch, w, p1, c1, w', p1, c2, w', {}, {});
  }

  lemma DeliverOneOwns(p: Pool, ch: Chan, w: seq<Owner>) returns (w': seq<Owner>)
    requires Owns(p, ch, w) && Tidy(ch) && Awaited(ch)
    ensures var (p1, c1) := DeliverOne(p, ch); Step(p, ch, w, p1, c1, w', {HeldAt(ch.recvSeq % SLOTS)})
  {
    var slot := ch.recvSeq % SLOTS;
    var e := ch.reorder[slot];
    var data := Content(p, e.buf, e.len);
    var (p1, c1) := Accept(p, ch, data);
    var w1 := AcceptOwns(p, ch, data, w);
    var (p2, c2) := DeliverOne(p, ch);
    hide Accept;
    var pl := HeldAt(slot);
    assert At(ch, pl) == e.buf;
    w' := GiveStep(p1, c1, w1, p2, c2, pl);
    StepChain(p, ch, w, p1, c1, w1, p2, c2, w', {}, {pl});
    assert {} + {pl} == {pl};
  }

  /** Give, with tidiness. */
  lemma GiveStep(p: Pool, ch: Chan, w: seq<Owner>, p': Pool, ch': Chan, pl: Place) returns (w': seq<Owner>)
    requires Owns(p, ch, w) && Tidy(ch')
    requires At(ch, pl) != NOBUF && At(ch', pl) == NOBUF
    requires p' == PoolPut(p, At(ch, pl))
    requires forall q :: q != pl ==> At(ch', q) == At(ch, q)
    ensures Step(p, ch, w, p', ch', w', {pl})
  {
    w' := Give(p, ch, w, p', ch', pl);
  }

  function AllHeld(): set<Place> { set i {:trigger HeldAt(i)} | 0 <= i < SLOTS :: HeldAt(i) }

  lemma {:induction false} DeliverOwns(p: Pool, ch: Chan, w: seq<Owner>) returns (w': seq<Owner>)
    requires Owns(p, ch, w) && Tidy(ch)
    ensures var (p1, c1) := Deliver(p, ch); Step(p, ch, w, p1, c1, w', AllHeld())
    decreases Waiting(ch.reorder)
  {
    w' := w;
    if Awaited(ch) {
      var (p1, c1) := DeliverOne(p, ch);
      var w1 := DeliverOneOwns(p, ch, w);
      WaitingClears(ch.reorder, ch.recvSeq % SLOTS, c1.reorder[ch.recvSeq % SLOTS]);
      hide DeliverOne;
      w' := DeliverOwns(p1, c1, w1);
      var (p2, c2) := Deliver(p1, c1);
      assert Deliver(p, ch) == (p2, c2);
      hide Deliver, Owns, Tidy, Aside, Undisturbed;
      StepChain(p, ch, w, p1, c1, w1, p2, c2, w', {HeldAt(ch.recvSeq % SLOTS)}, AllHeld());
      assert {HeldAt(ch.recvSeq % SLOTS)} + AllHeld() == AllHeld();
    }
  }

  lemma HoldOwns(p: Pool, ch: Chan, num: u16, data: Message, w: seq<Owner>) returns (w': seq<Owner>)
    requires Owns(p, ch, w) && Tidy(ch)
    ensures var (p1, c1) := Hold(p, ch, num, data);
      && Step(p, ch, w, p1, c1, w', {})
      && (c1 != ch ==> c1.reorder[num % SLOTS].len == |data|
                       && Content(p1, c1.reorder[num % SLOTS].buf, |data|) == data)
  {
    var (p1, c1) := Hold(p, ch, num, data);
    w' := w;
    if c1 != ch {
      var b := p.free[|p.free| - 1];
      BlitStart(p.store[b], data);
      w' := Take(p, ch, w, p1, c1, HeldAt(num % SLOTS));
    }
  }

  lemma ArriveOwns(p: Pool, ch: Chan, num: u16, data: Message, w: seq<Owner>) returns (w': seq<Owner>)
    requires Owns(p, ch, w) && Tidy(ch)
    ensures var (p1, c1) := Arrive(p, ch, num, data); Step(p, ch, w, p1, c1, w', AllHeld())
  {
    if num == ch.recvSeq {
      var (p1, c1) := Accept(p, ch, data);
      var w1 := AcceptOwns(p, ch, data, w);
      w' := DeliverOwns(p1, c1, w1);
      var (p2, c2) := Deliver(p1, c1);
      hide Accept, Deliver;
      StepChain(p, ch, w, p1, c1, w1, p2, c2, w', {}, AllHeld());
      assert {} + AllHeld() == AllHeld();
    } else {
      w' := HoldOwns(p, ch, num, data, w);
    }
  }

  // ----- fragments -----

  lemma FragSlotOwns(p: Pool, ch: Chan, num: u16, total: nat, w: seq<Owner>) returns (w': seq<Owner>)
    requires Owns(p, ch, w) && Tidy(ch)
    ensures var (p1, c1, i) := FragSlot(p, ch, num, total); Step(p, ch, w, p1, c1, w', {})
  {
    var (p1, c1, i) := FragSlot(p, ch, num, total);
    w' := w;
    if c1 != ch {
      w' := Take(p, ch, w, p1, c1, FragAt(i));
    } else {
      assert p1 == p by { FragSlotSame(p, ch, num, total); }
    }
  }

  lemma FragSlotSame(p: Pool, ch: Chan, num: u16, total: nat)
    requires Shaped(ch)
    ensures var (p1, c1, i) := FragSlot(p, ch, num, total);
      (p1 == p && c1 == ch) || (i < FRAG_SLOTS && !ch.frags[i].active && p.free != [] && c1.frags[i].active)
  {}

  /** A fragment lands in its slot's buffer. */
  lemma FragWriteOwns(p: Pool, ch: Chan, i: nat, f: Frag, at: nat, data: Message, w: seq<Owner>)
    requires Owns(p, ch, w) && Tidy(ch) && i < FRAG_SLOTS && ch.frags[i].active
    requires f.buf == ch.frags[i].buf && f.active && |f.offsets| == MAX_FRAGS
    ensures Step(p, ch, w, Copy(p, f.buf, at, data), ch.(frags := ch.frags[i := f]), w, {FragAt(i)})
  {
    var p' := Copy(p, f.buf, at, data);
    var ch' := ch.(frags := ch.frags[i := f]);
    assert At(ch, FragAt(i)) == f.buf;
    assert forall q :: At(ch', q) == At(ch, q);
    Scribble(p, ch, w, p', ch', FragAt(i));
  }

  lemma MarkOwns(p: Pool, p0: Pool, ch: Chan, w: seq<Owner>, overrun: bool, but: set<Place>)
    requires Step(p, ch, w, p0, ch, w, but)
    ensures Step(p, ch, w, p0.(overrun := overrun), ch, w, but)
  {}

  lemma HandOnOwns(p: Pool, ch: Chan, num: u16, data: Message, w: seq<Owner>) returns (w': seq<Owner>)
    requires Owns(p, ch, w) && Tidy(ch)
    ensures var (p1, c1) := HandOn(p, ch, num, data); Step(p, ch, w, p1, c1, w', AllHeld())
  {
    hide Enqueue, Arrive, Owns, Tidy, Aside;
    if ch.kind == UNRELIABLE {
      w' := EnqueueOwns(p, ch, data, w);
    } else {
      w' := ArriveOwns(p, ch, num, data, w);
    }
  }

  lemma FragDoneOwns(p: Pool, ch: Chan, fp: nat, i: nat, w: seq<Owner>) returns (w': seq<Owner>)
    requires Owns(p, ch, w) && Tidy(ch) && i < FRAG_SLOTS && ch.frags[i].active
    ensures var (p1, c1) := FragDone(p, ch, fp, i); Step(p, ch, w, p1, c1, w', AllHeld() + {FragAt(i)})
  {
    hide Owns, Undisturbed, PoolShaped, Aside, HandOn, Compact, Copy, Inside, Part;
    var f := ch.frags[i];
    var (s, n) := Compact(Buffer(p, f.buf), fp, f.offsets, f.total, 0, 0);
    var p0 := Copy(p, f.buf, 0, s);
    var p1 := p0.(overrun := p.overrun || !Inside(f));
    var (p2, c2) := HandOn(p1, ch, f.num, Part(s, 0, n));
    var (p3, c3) := FragDone(p, ch, fp, i);
    assert p3 == PoolPut(p2, f.buf) && c3 == c2.(frags := c2.frags[i := NoFrag()]);
    hide FragDone;
    FragWriteOwns(p, ch, i, f, 0, s, w);
    assert ch.(frags := ch.frags[i := f]) == ch;
    MarkOwns(p, p0, ch, w, p1.overrun, {FragAt(i)});
    var w2 := HandOnOwns(p1, ch, f.num, Part(s, 0, n), w);
    FragDoneTail(p, ch, p1, w, p2, c2, w2, p3, c3, i);
    w' := GiveStep(p2, c2, w2, p3, c3, FragAt(i));
    hide Tidy;
    StepChain(p, ch, w, p1, ch, w, p2, c2, w2, {FragAt(i)}, AllHeld());
    StepChain(p, ch, w, p2, c2, w2, p3, c3, w', {FragAt(i)} + AllHeld(), {FragAt(i)});
    assert {FragAt(i)} + AllHeld() + {FragAt(i)} == AllHeld() + {FragAt(i)};
  }

  lemma FragDoneTail(p: Pool, ch: Chan, p1: Pool, w: seq<Owner>, p2: Pool, c2: Chan, w2: seq<Owner>, p3: Pool,
      c3: Chan, i: nat)
    requires Tidy(ch) && i < FRAG_SLOTS && ch.frags[i].active
    requires Owns(p2, c2, w2) && Tidy(c2) && c2.frags == ch.frags
    requires p3 == PoolPut(p2, ch.frags[i].buf) && c3 == c2.(frags := c2.frags[i := NoFrag()])
    ensures At(c2, FragAt(i)) != NOBUF && At(c3, FragAt(i)) == NOBUF
    ensures p3 == PoolPut(p2, At(c2, FragAt(i)))
    ensures forall q :: q != FragAt(i) ==> At(c3, q) == At(c2, q)
    ensures Tidy(c3)
  {}

  lemma FragmentOwns(p: Pool, ch: Chan, fp: nat, num: u16, idx: nat, total: nat, data: Message, w: seq<Owner>)
    returns (w': seq<Owner>)
    requires Owns(p, ch, w) && Tidy(ch)
    ensures var (p1, c1) := Fragment(p, ch, fp, num, idx, total, data);
      Step(p, ch, w, p1, c1, w', AllHeld() + {FragAt(FragSlot(p, ch, num, total).2)})
  {
    hide FragSlot, Owns, Undisturbed, PoolShaped, Aside, FragDone, Copy, Offset, Fresh;
    var (p1, c1, i) := FragSlot(p, ch, num, total);
    w' := FragSlotOwns(p, ch, num, total, w);
    WiderStep(p, ch, w, p1, c1, w', {}, AllHeld() + {FragAt(i)});
    if i != FRAG_SLOTS && Fresh(c1.frags[i], idx, |data|, fp) {
      var f := FragWrite(c1.frags[i], idx, |data|);
      var p2 := Copy(p1, f.buf, Offset(idx, fp), data);
      var c2 := c1.(frags := c1.frags[i := f]);
      FragWriteOwns(p1, c1, i, f, Offset(idx, fp), data, w');
      StepChain(p, ch, w, p1, c1, w', p2, c2, w', AllHeld() + {FragAt(i)}, {FragAt(i)});
      assert AllHeld() + {FragAt(i)} + {FragAt(i)} == AllHeld() + {FragAt(i)};
      if f.have == f.total {
        var (p3, c3) := FragDone(p2, c2, fp, i);
        var w1 := w';
        w' := FragDoneOwns(p2, c2, fp, i, w1);
        hide Tidy;
        StepChain(p, ch, w, p2, c2, w1, p3, c3, w', AllHeld() + {FragAt(i)}, AllHeld() + {FragAt(i)});
        assert AllHeld() + {FragAt(i)} + (AllHeld() + {FragAt(i)}) == AllHeld() + {FragAt(i)};
      }
    }
  }

  lemma WiderStep(p: Pool, ch: Chan, w: seq<Owner>, p1: Pool, c1: Chan, w1: seq<Owner>, but: set<Place>,
      but': set<Place>)
    requires Step(p, ch, w, p1, c1, w1, but) && but <= but'
    ensures Step(p, ch, w, p1, c1, w1, but')
  {}

  /** The places a DATA frame may touch, apart from empty ones. */
  function Touched(p: Pool, ch: Chan, num: u16, total: nat): set<Place>
    requires Shaped(ch)
  {
    AllHeld() + {FragAt(FragSlot(p, ch, num, total).2)}
  }

  lemma DataOwns(p: Pool, ch: Chan, fp: nat, num: u16, idx: nat, total: nat, data: Message, w: seq<Owner>)
    returns (w': seq<Owner>)
    requires Owns(p, ch, w) && Tidy(ch)
    ensures var (p1, c1) := Data(p, ch, fp, num, idx, total, data);
            Step(p, ch, w, p1, c1, w', Touched(p, ch, num, total))
  {
    assert Shaped(ch);
    hide Fragment, Arrive, Enqueue, Owns, Tidy, Aside, Undisturbed;
    var p1, c1;
    if total > 1 {
      w' := FragmentOwns(p, ch, fp, num, idx, total, data, w);
      var (a, b) := Fragment(p, ch, fp, num, idx, total, data);
      p1, c1 := a, b;
    } else if ch.kind == UNRELIABLE {
      w' := EnqueueOwns(p, ch, data, w);
      var (a, b, _) := Enqueue(p, ch, data);
      p1, c1 := a, b;
      WiderStep(p, ch, w, p1, c1, w', {}, Touched(p, ch, num, total));
    } else {
      w' := ArriveOwns(p, ch, num, data, w);
      var (a, b) := Arrive(p, ch, num, data);
      p1, c1 := a, b;
      WiderStep(p, ch, w, p1, c1, w', AllHeld(), Touched(p, ch, num, total));
    }
    var (_, c2) := Data(p, ch, fp, num, idx, total, data);
    Relabel(p1, c1, w', c2);
    StepChain(p, ch, w, p1, c1, w', p1, c2, w', Touched(p, ch, num, total), {});
    assert Touched(p, ch, num, total) + {} == Touched(p, ch, num, total);
  }

  lemma ReadOwns(p: Pool, ch: Chan, room: nat, w: seq<Owner>) returns (w': seq<Owner>)
    requires Owns(p, ch, w) && Tidy(ch)
    ensures var (p1, c1, _) := Read(p, ch, room); Step(p, ch, w, p1, c1, w', {QueueAt(ch.rqHead)})
  {
    var (p1, c1, _) := Read(p, ch, room);
    w' := w;
    if c1 != ch {
      forall i | 0 <= i < SLOTS ensures InRing(i, c1.rqHead, ch.rqTail) <==>
          InRing(i, ch.rqHead, ch.rqTail) && i != ch.rqHead {
        RingShrinks(ch.rqHead, ch.rqTail, i);
      }
      RingShrinks(ch.rqHead, ch.rqTail, ch.rqHead);
      w' := Give(p, ch, w, p1, c1, QueueAt(ch.rqHead));
    }
  }

  // ----- sending -----

  lemma WriteOwns(p: Pool, ch: Chan, fp: nat, data: Message, w: seq<Owner>) returns (w': seq<Owner>)
    requires Owns(p, ch, w) && Tidy(ch) && fp > 0
    ensures var (p1, c1, res) := Write(p, ch, fp, data);
      && Step(p, ch, w, p1, c1, w', {})
      && (res.Sent? && |data| > 0 ==> Content(p1, c1.out[ch.outTail].buf, |data|) == data)
  {
    var (p1, c1, res) := Write(p, ch, fp, data);
    w' := w;
    if c1 == ch {
      assert p1 == p && !(res.Sent? && |data| > 0);
    } else {
      var o := c1.out[ch.outTail];
      var b := p.free[|p.free| - 1];
      assert b != NOBUF && |data| <= MAX_MSG && NextSlot(ch.outTail) != ch.outHead;
      if res.Sent? {
        assert c1.out == ch.out[ch.outTail := o] && c1.outTail == NextSlot(ch.outTail);
        assert o.active && o.buf == b && o.len == |data|;
        assert p1 == Copy(PoolGet(p).0, b, 0, data);
        hide Write;
        w' := WriteSlot(p, ch, data, w, p1, c1, o);
      } else {
        assert c1.out == ch.out[ch.outTail := NO_OUT] && c1.outTail == ch.outTail;
        assert p1 == PoolPut(Copy(PoolGet(p).0, b, 0, data), b);
        hide Write;
        WriteTooBig(p, ch, data, w, p1, c1);
      }
    }
  }

  lemma WriteSlot(p: Pool, ch: Chan, data: Message, w: seq<Owner>, p1: Pool, c1: Chan, o: Out) returns (w': seq<Owner>)
    requires Owns(p, ch, w) && Tidy(ch) && p.free != [] && |data| <= MAX_MSG && NextSlot(ch.outTail) != ch.outHead
    requires o.active && o.buf == p.free[|p.free| - 1] && o.len == |data|
    requires p1 == Copy(PoolGet(p).0, o.buf, 0, data)
    requires c1 == ch.(out := ch.out[ch.outTail := o], outTail := NextSlot(ch.outTail),
                       sendSeq := c1.sendSeq, inFlight := c1.inFlight, written := c1.written)
    ensures Step(p, ch, w, p1, c1, w', {}) && Content(p1, o.buf, |data|) == data
  {
    forall i | 0 <= i < SLOTS ensures InRing(i, ch.outHead, c1.outTail) <==>
        InRing(i, ch.outHead, ch.outTail) || i == ch.outTail {
      RingGrows(ch.outHead, ch.outTail, i);
    }
    RingGrows(ch.outHead, ch.outTail, ch.outTail);
    BlitStart(p.store[o.buf], data);
    w' := Take(p, ch, w, p1, c1, OutAt(ch.outTail));
  }

  lemma WriteTooBig(p: Pool, ch: Chan, data: Message, w: seq<Owner>, p1: Pool, c1: Chan)
    requires Owns(p, ch, w) && Tidy(ch) && p.free != [] && p.free[|p.free| - 1] != NOBUF
             && NextSlot(ch.outTail) != ch.outHead
    requires var b := p.free[|p.free| - 1]; p1 == PoolPut(Copy(PoolGet(p).0, b, 0, data), b)
    requires c1 == ch.(out := ch.out[ch.outTail := NO_OUT], sendSeq := c1.sendSeq)
    ensures Step(p, ch, w, p1, c1, w, {})
  {
    RingGrows(ch.outHead, ch.outTail, ch.outTail);
    assert p1.free == p.free;
    assert forall pl :: At(c1, pl) == At(ch, pl);
    assert w[p.free[|p.free| - 1]].Free?;
  }

  lemma AsideNone(p: Pool, ch: Chan, w: seq<Owner>)
    requires Owns(p, ch, w)
    ensures Aside(p, w, p, w)
  {}

  lemma {:induction false} AckFromOwns(p: Pool, ch: Chan, a: u16, i: nat, w: seq<Owner>) returns (w': seq<Owner>)
    requires Owns(p, ch, w) && Tidy(ch) && i <= SLOTS
    ensures var (p1, c1) := AckFrom(p, ch, a, i); Owns(p1, c1, w') && Tidy(c1) && Aside(p, w, p1, w')
    decreases SLOTS - i
  {
    hide Owns, Undisturbed, PoolShaped, Aside, Wrap32;
    assert Aside(p, w, p, w) by { AsideNone(p, ch, w); }
    w' := w;
    if i < SLOTS {
      if !Acked(ch.out[i], a) {
        w' := AckFromOwns(p, ch, a, i + 1, w);
      } else {
        var (p1, c1) := Release(p, ch, i);
        var w1 := ReleaseOwns(p, ch, i, w);
        hide Tidy, Release;
        var c2 := c1.(inFlight := Wrap32(ch.inFlight - ch.out[i].len));
        Relabel(p1, c1, w1, c2);
        w' := AckFromOwns(p1, c2, a, i + 1, w1);
        var (p3, c3) := AckFrom(p1, c2, a, i + 1);
        AsideChain(p, w, p1, w1, p3, w');
      }
    }
  }

  lemma ReleaseOwns(p: Pool, ch: Chan, i: nat, w: seq<Owner>) returns (w': seq<Owner>)
    requires Owns(p, ch, w) && Tidy(ch) && i < SLOTS && ch.out[i].active
    ensures var (p1, c1) := Release(p, ch, i); Step(p, ch, w, p1, c1, w', {OutAt(i)})
  {
    var (p1, c1) := Release(p, ch, i);
    w' := GiveStep(p, ch, w, p1, c1, OutAt(i));
  }

  /** The head moves over cleared slots only. */
  lemma {:induction false} AdvanceTidy(ch: Chan, head: nat)
    requires Tidy(ch) && head < SLOTS
    requires forall i :: 0 <= i < SLOTS && ch.out[i].active ==> InRing(i, head, ch.outTail)
    ensures Tidy(ch.(outHead := Advance(ch.out, head, ch.outTail)))
    decreases Distance(head, ch.outTail)
  {
    if head != ch.outTail && !ch.out[head].active {
      forall i | 0 <= i < SLOTS && ch.out[i].active ensures InRing(i, NextSlot(head), ch.outTail) {
        RingShrinks(head, ch.outTail, i);
      }
      AdvanceTidy(ch, NextSlot(head));
    }
  }

  lemma AdvanceOwns(p: Pool, ch: Chan, w: seq<Owner>)
    requires Owns(p, ch, w) && Tidy(ch)
    ensures Step(p, ch, w, p, ch.(outHead := Advance(ch.out, ch.outHead, ch.outTail)), w, {})
  {
    AdvanceTidy(ch, ch.outHead);
    var c1 := ch.(outHead := Advance(ch.out, ch.outHead, ch.outTail));
    assert forall pl :: At(c1, pl) == At(ch, pl);
  }

  lemma AckOwns(p: Pool, ch: Chan, a: u16, w: seq<Owner>) returns (w': seq<Owner>)
    requires Owns(p, ch, w) && Tidy(ch)
    ensures var (p1, c1) := Ack(p, ch, a); Owns(p1, c1, w') && Tidy(c1) && Aside(p, w, p1, w')
  {
    w' := AckFromOwns(p, ch, a, 0, w);
    var (p1, c1) := AckFrom(p, ch, a, 0);
    AdvanceOwns(p1, c1, w');
  }

  /** Changing an outgoing slot without touching its buffer. */
  lemma TouchOwns(p: Pool, ch: Chan, i: nat, o: Out, w: seq<Owner>)
    requires Owns(p, ch, w) && Tidy(ch) && i < SLOTS
    requires o.buf == ch.out[i].buf && o.active == ch.out[i].active && o.len == ch.out[i].len
    ensures Step(p, ch, w, p, ch.(out := ch.out[i := o]), w, {})
  {
    var c1 := ch.(out := ch.out[i := o]);
    assert forall pl :: At(c1, pl) == At(ch, pl);
  }

  lemma TransmitOwns(p: Pool, ch: Chan, i: nat, now: u32, w: seq<Owner>) returns (w': seq<Owner>)
    requires Owns(p, ch, w) && Tidy(ch) && i < SLOTS && ch.out[i].active
    ensures var (p1, c1) := Transmit(p, ch, i, now); Owns(p1, c1, w') && Tidy(c1) && Aside(p, w, p1, w')
  {
    var o := Sending(ch.out[i], now);
    var c1 := ch.(out := ch.out[i := o]);
    TouchOwns(p, ch, i, o, w);
    if o.fragSent >= o.fragTotal && ch.kind == UNRELIABLE {
      w' := DischargeOwns(p, c1, i, w);
    } else {
      w' := w;
    }
  }

  lemma DischargeOwns(p: Pool, ch: Chan, i: nat, w: seq<Owner>) returns (w': seq<Owner>)
    requires Owns(p, ch, w) && Tidy(ch) && i < SLOTS && ch.out[i].active
    ensures var (p1, c1) := Discharge(p, ch, i); Owns(p1, c1, w') && Tidy(c1) && Aside(p, w, p1, w')
  {
    var (p1, c1) := Release(p, ch, i);
    w' := ReleaseOwns(p, ch, i, w);
    hide Release, Advance;
    AdvanceOwns(p1, c1, w');
  }

  lemma {:induction false} RetransmitOwns(p: Pool, ch: Chan, rt: nat, now: u32, j: nat, w: seq<Owner>)
    requires Owns(p, ch, w) && Tidy(ch) && j <= SLOTS
    ensures var c1 := Retransmit(ch, rt, now, j); Owns(p, c1, w) && Tidy(c1)
    decreases SLOTS - j
  {
    hide Owns, Undisturbed, PoolShaped, Aside, Wrap32, Timeout;
    if j < SLOTS {
      var o := ch.out[j];
      if !o.active || o.sentMs == 0 || Wrap32(now - o.sentMs) < Timeout(rt, o.attempts) {
        RetransmitOwns(p, ch, rt, now, j + 1, w);
      } else if o.attempts >= MAX_RT_ATTEMPTS {
        Relabel(p, ch, w, ch.(state := 3));
      } else {
        var o1 := o.(fragSent := 0, sentMs := now, attempts := o.attempts + 1);
        TouchOwns(p, ch, j, o1, w);
        assert Shaped(ch.(out := ch.out[j := o1]));
        hide Tidy;
        RetransmitOwns(p, ch.(out := ch.out[j := o1]), rt, now, j + 1, w);
      }
    }
  }

  // ----- bytes in flight -----

  function Weight(o: Out): nat { if o.active then o.len else 0 }

  function Total(out: seq<Out>): nat {
    if out == [] then 0 else Total(out[..|out| - 1]) + Weight(out[|out| - 1])
  }

  predicate Accounted(ch: Chan) { ch.kind == RELIABLE ==> ch.inFlight == Total(ch.out) }

  lemma {:induction false} TotalUpdate(out: seq<Out>, i: nat, o: Out)
    requires i < |out|
    ensures Total(out[i := o]) == Total(out) - Weight(out[i]) + Weight(o)
  {
    var n := |out| - 1;
    if i == n {
      assert out[i := o][..n] == out[..n];
    } else {
      assert out[i := o][..n] == out[..n][i := o];
      TotalUpdate(out[..n], i, o);
    }
  }

  lemma {:induction false} TotalBound(out: seq<Out>)
    requires forall i :: 0 <= i < |out| ==> out[i].len <= MAX_MSG
    ensures Total(out) <= |out| * MAX_MSG
  {
    if out != [] { TotalBound(out[..|out| - 1]); }
  }

  lemma TotalTidy(ch: Chan)
    requires Tidy(ch)
    ensures Total(ch.out) <= SLOTS * MAX_MSG
  {
    TotalBound(ch.out);
  }

  lemma WriteAccounts(p: Pool, ch: Chan, fp: nat, data: Message)
    requires Tidy(ch) && Accounted(ch) && fp > 0
    ensures Accounted(Write(p, ch, fp, data).1)
  {
    hide Pieces, Copy, Next16;
    var (p1, c1, res) := Write(p, ch, fp, data);
    if c1 != ch {
      RingGrows(ch.outHead, ch.outTail, ch.outTail);
      assert Weight(ch.out[ch.outTail]) == 0;
      var o := c1.out[ch.outTail];
      assert c1.out == ch.out[ch.outTail := o];
      TotalUpdate(ch.out, ch.outTail, o);
      TotalTidy(ch);
    }
  }

  lemma {:induction false} AckFromAccounts(p: Pool, ch: Chan, a: u16, i: nat)
    requires Tidy(ch) && Accounted(ch) && i <= SLOTS
    ensures Accounted(AckFrom(p, ch, a, i).1)
    decreases SLOTS - i
  {
    if i < SLOTS {
      if !Acked(ch.out[i], a) {
        AckFromAccounts(p, ch, a, i + 1);
      } else {
        var (p1, c1) := Release(p, ch, i);
        TotalUpdate(ch.out, i, c1.out[i]);
        TotalTidy(ch);
        var c2 := c1.(inFlight := Wrap32(ch.inFlight - ch.out[i].len));
        assert Tidy(c2);
        AckFromAccounts(p1, c2, a, i + 1);
      }
    }
  }

  lemma TransmitAccounts(p: Pool, ch: Chan, i: nat, now: u32)
    requires Shaped(ch) && Accounted(ch) && i < SLOTS
    ensures Accounted(Transmit(p, ch, i, now).1)
  {
    var (p1, c1) := Transmit(p, ch, i, now);
    assert c1.kind == ch.kind && c1.inFlight == ch.inFlight;
    if ch.kind == RELIABLE {
      var o := Sending(ch.out[i], now);
      TotalUpdate(ch.out, i, o);
      assert c1.out == ch.out[i := o];
    }
  }

  lemma {:induction false} RetransmitAccounts(ch: Chan, rt: nat, now: u32, j: nat)
    requires Shaped(ch) && Accounted(ch) && j <= SLOTS
    ensures Accounted(Retransmit(ch, rt, now, j))
    decreases SLOTS - j
  {
    if j < SLOTS {
      var o := ch.out[j];
      if !o.active || o.sentMs == 0 || Wrap32(now - o.sentMs) < Timeout(rt, o.attempts) {
        RetransmitAccounts(ch, rt, now, j + 1);
      } else if o.attempts < MAX_RT_ATTEMPTS {
        var o1 := o.(fragSent := 0, sentMs := now, attempts := o.attempts + 1);
        TotalUpdate(ch.out, j, o1);
        RetransmitAccounts(ch.(out := ch.out[j := o1]), rt, now, j + 1);
      }
    }
  }

  lemma {:induction false} NothingInFlight(out: seq<Out>)
    requires forall i :: 0 <= i < |out| ==> !out[i].active
    ensures Total(out) == 0
  {
    if out != [] { NothingInFlight(out[..|out| - 1]); }
  }

  lemma NewChanHolds(p: Pool, kind: nat, sender: bool, state: nat, window: u32, w: seq<Owner>)
    requires |w| == BUFS && PoolShaped(p) && FreeOwned(p, w) && forall b :: 0 <= b < BUFS ==> !w[b].Mine?
    ensures var ch := NewChan(kind, sender, state, window); Owns(p, ch, w) && Tidy(ch) && Accounted(ch)
  {
    var ch := NewChan(kind, sender, state, window);
    NothingInFlight(ch.out);
  }
}
