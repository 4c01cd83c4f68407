/** What a reliable netchan-v2 channel receives, whatever order, loss and repetition the
    network makes of the fragments of the messages `sent`. */
module V2Receiver {
  import opened Bytes
  import opened V2Channel
  import opened V2Pool
  import opened V2Fragments

  predicate Few(sent: seq<Message>) { |sent| < 0x1_0000 }

  /** The elements of `ms` whose mark is true, in order. */
  function Select(ms: seq<Message>, marks: seq<bool>): (r: seq<Message>)
    requires |ms| == |marks|
  {
    if ms == [] then []
    else Select(ms[..|ms| - 1], marks[..|ms| - 1]) + if marks[|ms| - 1] then [ms[|ms| - 1]] else []
  }

  lemma {:induction false} SelectAll(ms: seq<Message>, marks: seq<bool>)
    requires |ms| == |marks| && forall i :: 0 <= i < |marks| ==> marks[i]
    ensures Select(ms, marks) == ms
  {
    if ms != [] { SelectAll(ms[..|ms| - 1], marks[..|ms| - 1]); }
  }

  lemma SelectNext(ms: seq<Message>, n: nat, marks: seq<bool>, mark: bool)
    requires n < |ms| && |marks| == n
    ensures Select(ms[..n + 1], marks + [mark]) == Select(ms[..n], marks) + if mark then [ms[n]] else []
  {
    assert ms[..n + 1][..n] == ms[..n];
    assert (marks + [mark])[..n] == marks;
  }

  // ----- the invariant -----

  /** The receive ring holds exactly what arrived and was not yet read. */
  predicate QueueHolds(p: Pool, ch: Chan)
    requires Shaped(ch)
  {
    && ch.taken + Distance(ch.rqHead, ch.rqTail) == |ch.arrived|
    && forall i :: 0 <= i < SLOTS && InRing(i, ch.rqHead, ch.rqTail) ==>
         Content(p, ch.rq[i].buf, ch.rq[i].len) == ch.arrived[ch.taken + Distance(ch.rqHead, i)]
  }

  /** Every number below recvSeq was offered to the queue once, in order. */
  predicate LogHolds(ch: Chan, sent: seq<Message>) {
    && |ch.kept| == ch.recvSeq <= |sent|
    && ch.arrived == Select(sent[..ch.recvSeq], ch.kept)
  }

  /** How far ahead of `b` number `a` is. */
  function Ahead(a: u16, b: u16): nat { if a >= b then a - b else a - b + 0x1_0000 }

  predicate SlotHolds(p: Pool, r: Reorder, i: nat, next: u16, sent: seq<Message>) {
    && r.num % SLOTS == i && Ahead(r.num, next) < SLOTS
    && (r.num >= next ==> r.num < |sent| && Content(p, r.buf, r.len) == sent[r.num])
  }

  predicate HeldHolds(p: Pool, ch: Chan, sent: seq<Message>)
    requires Shaped(ch)
  {
    forall i :: 0 <= i < SLOTS && ch.reorder[i].valid ==> SlotHolds(p, ch.reorder[i], i, ch.recvSeq, sent)
  }

  predicate FragHolds(p: Pool, f: Frag, fp: nat, sent: seq<Message>) {
    f.num < |sent| && Present(Buffer(p, f.buf), f, sent[f.num], fp)
  }

  predicate FragsHold(p: Pool, ch: Chan, fp: nat, sent: seq<Message>)
    requires Shaped(ch)
  {
    forall i :: 0 <= i < FRAG_SLOTS && ch.frags[i].active ==> FragHolds(p, ch.frags[i], fp, sent)
  }

  predicate Good(p: Pool, ch: Chan, fp: nat, sent: seq<Message>) {
    Shaped(ch) && QueueHolds(p, ch) && LogHolds(ch, sent) && HeldHolds(p, ch, sent) && FragsHold(p, ch, fp, sent)
  }

  // ----- what is left alone stays as it was -----

  lemma QueueKept(p: Pool, ch: Chan, p': Pool, ch': Chan, but: set<Place>)
    requires Tidy(ch) && Shaped(ch') && QueueHolds(p, ch) && Undisturbed(p, ch, p', ch', but)
    requires forall i :: QueueAt(i) !in but
    requires ch'.rq == ch.rq && ch'.rqHead == ch.rqHead && ch'.rqTail == ch.rqTail && ch'.arrived == ch.arrived
             && ch'.taken == ch.taken
    ensures QueueHolds(p', ch')
  {
    forall i | 0 <= i < SLOTS && InRing(i, ch.rqHead, ch.rqTail)
      ensures Content(p', ch'.rq[i].buf, ch'.rq[i].len) == ch'.arrived[ch'.taken + Distance(ch.rqHead, i)]
    {
      assert At(ch, QueueAt(i)) == ch.rq[i].buf != NOBUF;
    }
  }

  lemma HeldKept(p: Pool, ch: Chan, p': Pool, ch': Chan, but: set<Place>, sent: seq<Message>)
    requires Tidy(ch) && Shaped(ch') && HeldHolds(p, ch, sent) && Undisturbed(p, ch, p', ch', but)
    requires forall i :: HeldAt(i) !in but
    requires ch'.reorder == ch.reorder && ch'.recvSeq == ch.recvSeq
    ensures HeldHolds(p', ch', sent)
  {
    forall i | 0 <= i < SLOTS && ch.reorder[i].valid ensures SlotHolds(p', ch'.reorder[i], i, ch'.recvSeq, sent) {
      assert At(ch, HeldAt(i)) == ch.reorder[i].buf != NOBUF;
      assert SlotHolds(p, ch.reorder[i], i, ch.recvSeq, sent);
    }
  }

  lemma FragKept(p: Pool, ch: Chan, p': Pool, ch': Chan, but: set<Place>, fp: nat, sent: seq<Message>, i: nat)
    requires Tidy(ch) && Shaped(ch') && i < FRAG_SLOTS && ch.frags[i].active && FragHolds(p, ch.frags[i], fp, sent)
    requires Undisturbed(p, ch, p', ch', but) && FragAt(i) !in but
    ensures FragHolds(p', ch.frags[i], fp, sent)
  {
    assert At(ch, FragAt(i)) == ch.frags[i].buf != NOBUF;
  }

  lemma FragsKept(p: Pool, ch: Chan, p': Pool, ch': Chan, but: set<Place>, fp: nat, sent: seq<Message>)
    requires Tidy(ch) && Shaped(ch') && FragsHold(p, ch, fp, sent) && Undisturbed(p, ch, p', ch', but)
    requires forall i :: FragAt(i) !in but
    requires ch'.frags == ch.frags
    ensures FragsHold(p', ch', fp, sent)
  {
    forall i | 0 <= i < FRAG_SLOTS && ch.frags[i].active ensures FragHolds(p', ch.frags[i], fp, sent) {
      FragKept(p, ch, p', ch', but, fp, sent, i);
    }
  }

  /** Nothing of this channel changed hands or bytes. */
  lemma GoodKept(p: Pool, ch: Chan, p': Pool, ch': Chan, fp: nat, sent: seq<Message>)
    requires Tidy(ch) && Good(p, ch, fp, sent) && Shaped(ch') && Undisturbed(p, ch, p', ch', {})
    requires ch'.rq == ch.rq && ch'.rqHead == ch.rqHead && ch'.rqTail == ch.rqTail && ch'.arrived == ch.arrived
             && ch'.taken == ch.taken
    requires ch'.reorder == ch.reorder && ch'.recvSeq == ch.recvSeq && ch'.kept == ch.kept && ch'.frags == ch.frags
    ensures Good(p', ch', fp, sent)
  {
    QueueKept(p, ch, p', ch', {});
    HeldKept(p, ch, p', ch', {}, sent);
    FragsKept(p, ch, p', ch', {}, fp, sent);
  }

  /** More messages written later change nothing. */
  lemma GoodExtends(p: Pool, ch: Chan, fp: nat, sent: seq<Message>, more: seq<Message>)
    requires Good(p, ch, fp, sent)
    ensures Good(p, ch, fp, sent + more)
  {
    var all := sent + more;
    assert all[..ch.recvSeq] == sent[..ch.recvSeq];
    assert forall n :: 0 <= n < |sent| ==> all[n] == sent[n];
    assert HeldHolds(p, ch, all) by {
      forall i | 0 <= i < SLOTS && ch.reorder[i].valid ensures SlotHolds(p, ch.reorder[i], i, ch.recvSeq, all) {
        assert SlotHolds(p, ch.reorder[i], i, ch.recvSeq, sent);
      }
    }
    assert FragsHold(p, ch, fp, all) by {
      hide Present;
      forall i | 0 <= i < FRAG_SLOTS && ch.frags[i].active ensures FragHolds(p, ch.frags[i], fp, all) {
        assert FragHolds(p, ch.frags[i], fp, sent);
      }
    }
  }

  // ----- enqueue and deliver -----

  lemma EnqueueQueue(p: Pool, ch: Chan, data: Message, w: seq<Owner>) returns (w': seq<Owner>)
    requires Owns(p, ch, w) && Tidy(ch) && QueueHolds(p, ch)
    ensures var (p1, c1, ok) := Enqueue(p, ch, data);
      Step(p, ch, w, p1, c1, w', {}) && QueueHolds(p1, c1) && c1.arrived == ch.arrived + if ok then [data] else []
  {
    w' := EnqueueOwns(p, ch, data, w);
    var (p1, c1, ok) := Enqueue(p, ch, data);
    if ok {
      assert c1.rqTail == NextSlot(ch.rqTail) != ch.rqHead;
      assert c1.rq == ch.rq[ch.rqTail := c1.rq[ch.rqTail]] && c1.arrived == ch.arrived + [data];
      hide Enqueue, Owns, Aside;
      QueueGrows(p, ch, p1, c1, data);
    } else {
      assert ch.arrived + [] == ch.arrived;
    }
  }

  lemma QueueGrows(p: Pool, ch: Chan, p1: Pool, c1: Chan, data: Message)
    requires Tidy(ch) && Shaped(c1) && QueueHolds(p, ch) && Undisturbed(p, ch, p1, c1, {})
    requires c1.rqTail == NextSlot(ch.rqTail) != ch.rqHead && c1.rqHead == ch.rqHead && c1.taken == ch.taken
    requires c1.rq == ch.rq[ch.rqTail := c1.rq[ch.rqTail]] && c1.arrived == ch.arrived + [data]
    requires Content(p1, c1.rq[ch.rqTail].buf, c1.rq[ch.rqTail].len) == data
    ensures QueueHolds(p1, c1)
  {
    forall i | 0 <= i < SLOTS && InRing(i, c1.rqHead, c1.rqTail)
      ensures Content(p1, c1.rq[i].buf, c1.rq[i].len) == c1.arrived[c1.taken + Distance(c1.rqHead, i)]
    {
      RingGrows(ch.rqHead, ch.rqTail, i);
      if i != ch.rqTail { assert At(ch, QueueAt(i)) == ch.rq[i].buf != NOBUF; }
    }
  }

  /** The message whose turn it is. */
  lemma AcceptGood(p: Pool, ch: Chan, fp: nat, sent: seq<Message>, w: seq<Owner>) returns (w': seq<Owner>)
    requires Owns(p, ch, w) && Tidy(ch) && Good(p, ch, fp, sent) && Few(sent) && ch.recvSeq < |sent|
    ensures var (p1, c1) := Accept(p, ch, sent[ch.recvSeq]);
      && Step(p, ch, w, p1, c1, w', {})
      && QueueHolds(p1, c1) && LogHolds(c1, sent) && FragsHold(p1, c1, fp, sent)
      && c1.recvSeq == ch.recvSeq + 1 && c1.reorder == ch.reorder
  {
    var data := sent[ch.recvSeq];
    var (p1, c1, ok) := Enqueue(p, ch, data);
    var (p2, c2) := Accept(p, ch, data);
    w' := EnqueueQueue(p, ch, data, w);
    hide Enqueue;
    Relabel(p1, c1, w', c2);
    StepChain(p, ch, w, p1, c1, w', p1, c2, w', {}, {});
    QueueKept(p1, c1, p1, c2, {});
    FragsKept(p, ch, p1, c2, {}, fp, sent);
    SelectNext(sent, ch.recvSeq, ch.kept, ok);
  }

  /** Between deliveries: the slots whose turn has come included. */
  lemma DeliverOneGood(p: Pool, ch: Chan, fp: nat, sent: seq<Message>, w: seq<Owner>) returns (w': seq<Owner>)
    requires Owns(p, ch, w) && Tidy(ch) && Good(p, ch, fp, sent) && Few(sent) && Awaited(ch)
    ensures var (p1, c1) := DeliverOne(p, ch);
            Owns(p1, c1, w') && Tidy(c1) && Aside(p, w, p1, w') && Good(p1, c1, fp, sent)
  {
    var slot := ch.recvSeq % SLOTS;
    var e := ch.reorder[slot];
    assert SlotHolds(p, e, slot, ch.recvSeq, sent);
    var data := Content(p, e.buf, e.len);
    assert data == sent[ch.recvSeq];
    var (p1, c1) := Accept(p, ch, data);
    var w1 := AcceptGood(p, ch, fp, sent, w);
    var (p2, c2) := DeliverOne(p, ch);
    hide Accept;
    var pl := HeldAt(slot);
    assert At(ch, pl) == e.buf;
    w' := GiveStep(p1, c1, w1, p2, c2, pl);
    AsideChain(p, w, p1, w1, p2, w');
    QueueKept(p1, c1, p2, c2, {pl});
    FragsKept(p1, c1, p2, c2, {pl}, fp, sent);
    HeldAfter(p, ch, p1, c1, p2, c2, sent);
  }

  lemma HeldAfter(p: Pool, ch: Chan, p1: Pool, c1: Chan, p2: Pool, c2: Chan, sent: seq<Message>)
    requires Tidy(ch) && Shaped(c1) && Shaped(c2) && HeldHolds(p, ch, sent)
    requires Undisturbed(p, ch, p1, c1, {}) && Undisturbed(p1, c1, p2, c2, {HeldAt(ch.recvSeq % SLOTS)})
    requires c2.recvSeq == ch.recvSeq + 1 && c1.reorder == ch.reorder
    requires !c2.reorder[ch.recvSeq % SLOTS].valid
    requires forall i :: 0 <= i < SLOTS && i != ch.recvSeq % SLOTS ==> c2.reorder[i] == ch.reorder[i]
    ensures HeldHolds(p2, c2, sent)
  {
    forall i | 0 <= i < SLOTS && c2.reorder[i].valid ensures SlotHolds(p2, c2.reorder[i], i, c2.recvSeq, sent) {
      assert SlotHolds(p, ch.reorder[i], i, ch.recvSeq, sent);
      assert At(ch, HeldAt(i)) == ch.reorder[i].buf != NOBUF;
      assert At(c1, HeldAt(i)) == ch.reorder[i].buf;
    }
  }

  /** Every slot is strictly ahead. */
  predicate Settled(ch: Chan)
    requires Shaped(ch)
  {
    forall i :: 0 <= i < SLOTS && ch.reorder[i].valid ==>
        ch.reorder[i].num % SLOTS == i && 0 < Ahead(ch.reorder[i].num, ch.recvSeq) < SLOTS
  }

  lemma {:induction false} DeliverGood(p: Pool, ch: Chan, fp: nat, sent: seq<Message>, w: seq<Owner>)
      returns (w': seq<Owner>)
    requires Owns(p, ch, w) && Tidy(ch) && Good(p, ch, fp, sent) && Few(sent)
    ensures var (p1, c1) := Deliver(p, ch);
      Owns(p1, c1, w') && Tidy(c1) && Aside(p, w, p1, w') && Good(p1, c1, fp, sent) && Settled(c1)
    decreases Waiting(ch.reorder)
  {
    if Awaited(ch) {
      var (p1, c1) := DeliverOne(p, ch);
      var w1 := DeliverOneGood(p, ch, fp, sent, w);
      WaitingClears(ch.reorder, ch.recvSeq % SLOTS, c1.reorder[ch.recvSeq % SLOTS]);
      assert Deliver(p, ch) == Deliver(p1, c1);
      hide DeliverOne, Owns, Tidy, Good, Aside;
      w' := DeliverGood(p1, c1, fp, sent, w1);
      AsideChain(p, w, p1, w1, Deliver(p1, c1).0, w');
    } else {
      w' := w;
      assert Settled(ch) by {
        forall i | 0 <= i < SLOTS && ch.reorder[i].valid ensures 0 < Ahead(ch.reorder[i].num, ch.recvSeq) {
          assert SlotHolds(p, ch.reorder[i], i, ch.recvSeq, sent);
        }
      }
    }
  }

  /** A message out of turn. */
  lemma HoldGood(p: Pool, ch: Chan, fp: nat, num: u16, sent: seq<Message>, w: seq<Owner>) returns (w': seq<Owner>)
    requires Owns(p, ch, w) && Tidy(ch) && Good(p, ch, fp, sent) && Settled(ch) && num < |sent| && num != ch.recvSeq
    ensures var (p1, c1) := Hold(p, ch, num, sent[num]);
      Owns(p1, c1, w') && Tidy(c1) && Aside(p, w, p1, w') && Good(p1, c1, fp, sent) && Settled(c1)
  {
    var data := sent[num];
    var (p1, c1) := Hold(p, ch, num, data);
    w' := HoldOwns(p, ch, num, data, w);
    QueueKept(p, ch, p1, c1, {});
    FragsKept(p, ch, p1, c1, {}, fp, sent);
    var slot := num % SLOTS;
    if c1 == ch {
      HeldKept(p, ch, p1, c1, {}, sent);
    } else {
      assert c1.reorder == ch.reorder[slot := c1.reorder[slot]] && !ch.reorder[slot].valid
          && c1.reorder[slot].num == num;
      assert 0 < Ahead(num, ch.recvSeq) < SLOTS;
      hide Hold, Owns, Aside, QueueHolds, FragsHold, LogHolds;
      HeldGrows(p, ch, p1, c1, slot, sent);
    }
  }

  lemma HeldGrows(p: Pool, ch: Chan, p1: Pool, c1: Chan, slot: nat, sent: seq<Message>)
    requires Tidy(ch) && Shaped(c1) && HeldHolds(p, ch, sent) && Settled(ch) && Undisturbed(p, ch, p1, c1, {})
    requires slot < SLOTS && c1.reorder == ch.reorder[slot := c1.reorder[slot]] && c1.recvSeq == ch.recvSeq
    requires c1.reorder[slot].num % SLOTS == slot && 0 < Ahead(c1.reorder[slot].num, ch.recvSeq) < SLOTS
             && !ch.reorder[slot].valid
    requires c1.reorder[slot].num < |sent|
             && Content(p1, c1.reorder[slot].buf, c1.reorder[slot].len) == sent[c1.reorder[slot].num]
    ensures HeldHolds(p1, c1, sent) && Settled(c1)
  {
    forall i | 0 <= i < SLOTS && c1.reorder[i].valid ensures SlotHolds(p1, c1.reorder[i], i, c1.recvSeq, sent) {
      if i != slot {
        assert SlotHolds(p, ch.reorder[i], i, ch.recvSeq, sent);
        assert At(ch, HeldAt(i)) == ch.reorder[i].buf != NOBUF;
      }
    }
  }

  /** A whole message, in turn or not. */
  lemma ArriveGood(p: Pool, ch: Chan, fp: nat, num: u16, sent: seq<Message>, w: seq<Owner>) returns (w': seq<Owner>)
    requires Owns(p, ch, w) && Tidy(ch) && Good(p, ch, fp, sent) && Settled(ch) && Few(sent) && num < |sent|
    ensures var (p1, c1) := Arrive(p, ch, num, sent[num]);
      Owns(p1, c1, w') && Tidy(c1) && Aside(p, w, p1, w') && Good(p1, c1, fp, sent) && Settled(c1)
  {
    if num == ch.recvSeq {
      var (p1, c1) := Accept(p, ch, sent[num]);
      var w1 := AcceptGood(p, ch, fp, sent, w);
      hide Accept;
      HeldTurn(p, ch, p1, c1, sent);
      w' := DeliverGood(p1, c1, fp, sent, w1);
      AsideChain(p, w, p1, w1, Deliver(p1, c1).0, w');
    } else {
      w' := HoldGood(p, ch, fp, num, sent, w);
    }
  }

  lemma HeldTurn(p: Pool, ch: Chan, p1: Pool, c1: Chan, sent: seq<Message>)
    requires Tidy(ch) && Shaped(c1) && HeldHolds(p, ch, sent) && Settled(ch) && Undisturbed(p, ch, p1, c1, {})
    requires c1.recvSeq == ch.recvSeq + 1 && c1.reorder == ch.reorder
    ensures HeldHolds(p1, c1, sent)
  {
    forall i | 0 <= i < SLOTS && c1.reorder[i].valid ensures SlotHolds(p1, c1.reorder[i], i, c1.recvSeq, sent) {
      assert SlotHolds(p, ch.reorder[i], i, ch.recvSeq, sent);
      assert At(ch, HeldAt(i)) == ch.reorder[i].buf != NOBUF;
    }
  }

  // ----- fragments -----

  /** A DATA frame's fields as the sender fills them for fragment `idx` of message `num`. */
  predicate Genuine(num: u16, idx: nat, total: nat, data: Message, fp: nat, sent: seq<Message>) {
    && fp > 0 && num < |sent| && 0 < |sent[num]| <= MAX_MSG
    && total == Pieces(|sent[num]|, fp) && idx < total
    && Offset(idx, fp) <= |sent[num]| && data == Cut(sent[num], idx, fp)
  }

  lemma FragSlotGood(p: Pool, ch: Chan, fp: nat, num: u16, sent: seq<Message>, w: seq<Owner>) returns (w': seq<Owner>)
    requires Owns(p, ch, w) && Tidy(ch) && Good(p, ch, fp, sent) && Settled(ch) && Admissible(fp)
    requires num < |sent| && 0 < |sent[num]| <= MAX_MSG
    ensures var (p1, c1, i) := FragSlot(p, ch, num, Pieces(|sent[num]|, fp));
      && Step(p, ch, w, p1, c1, w', {}) && Good(p1, c1, fp, sent) && Settled(c1)
  {
    var total := Pieces(|sent[num]|, fp);
    var (p1, c1, i) := FragSlot(p, ch, num, total);
    w' := FragSlotOwns(p, ch, num, total, w);
    QueueKept(p, ch, p1, c1, {});
    HeldKept(p, ch, p1, c1, {}, sent);
    if c1 == ch {
      FragsKept(p, ch, p1, c1, {}, fp, sent);
    } else {
      PiecesFit(|sent[num]|, fp);
      var f := c1.frags[i];
      EmptyKeeps(Buffer(p1, f.buf), num, f.buf, sent[num], fp);
      FragSlotNew(p, ch, num, total);
      hide FragSlot, Present;
      forall k | 0 <= k < FRAG_SLOTS && c1.frags[k].active ensures FragHolds(p1, c1.frags[k], fp, sent) {
        if k != i { FragKept(p, ch, p1, c1, {}, fp, sent, k); }
      }
    }
  }

  lemma FragSlotNew(p: Pool, ch: Chan, num: u16, total: nat)
    requires Shaped(ch)
    ensures var (p1, c1, i) := FragSlot(p, ch, num, total);
      c1 != ch ==> i < FRAG_SLOTS && c1.frags == ch.frags[i := c1.frags[i]]
                   && c1.frags[i] == Frag(num, total, 0, {}, c1.frags[i].buf, Repeat(0, MAX_FRAGS), true)
  {}

  lemma CopySelf(p: Pool, b: int)
    ensures Copy(p, b, 0, Buffer(p, b)) == p
  {
    if 0 <= b < |p.store| { assert Blit(p.store[b], 0, p.store[b]) == p.store[b]; }
  }

  lemma FragDoneGood(p: Pool, ch: Chan, fp: nat, i: nat, sent: seq<Message>, w: seq<Owner>) returns (w': seq<Owner>)
    requires Owns(p, ch, w) && Tidy(ch) && Good(p, ch, fp, sent) && Settled(ch) && Few(sent)
    requires i < FRAG_SLOTS && ch.frags[i].active && ch.frags[i].have == ch.frags[i].total && ch.kind != UNRELIABLE
    ensures var (p1, c1) := FragDone(p, ch, fp, i);
      Owns(p1, c1, w') && Tidy(c1) && Aside(p, w, p1, w') && Good(p1, c1, fp, sent) && Settled(c1)
  {
    var f := ch.frags[i];
    var b := Buffer(p, f.buf);
    assert FragHolds(p, f, fp, sent);
    CompactIs(b, f, sent[f.num], fp);
    CompactLeaves(b, f, sent[f.num], fp);
    FullIsInside(b, f, sent[f.num], fp);
    CopySelf(p, f.buf);
    var (p2, c2) := Arrive(p, ch, f.num, sent[f.num]);
    var w2 := ArriveGood(p, ch, fp, f.num, sent, w);
    var (p3, c3) := FragDone(p, ch, fp, i);
    assert p3 == PoolPut(p2, f.buf) && c3 == c2.(frags := c2.frags[i := NoFrag()]);
    hide FragDone, Arrive, Compact;
    FragDoneTail(p, ch, p, w, p2, c2, w2, p3, c3, i);
    w' := Give(p2, c2, w2, p3, c3, FragAt(i));
    AsideChain(p, w, p2, w2, p3, w');
    hide Owns, Aside;
    QueueKept(p2, c2, p3, c3, {FragAt(i)});
    HeldKept(p2, c2, p3, c3, {FragAt(i)}, sent);
    FragsDrop(p2, c2, p3, c3, i, fp, sent);
  }

  lemma FragsDrop(p: Pool, ch: Chan, p': Pool, ch': Chan, i: nat, fp: nat, sent: seq<Message>)
    requires Tidy(ch) && Shaped(ch') && FragsHold(p, ch, fp, sent) && i < FRAG_SLOTS
    requires Undisturbed(p, ch, p', ch', {FragAt(i)}) && ch'.frags == ch.frags[i := NoFrag()]
    ensures FragsHold(p', ch', fp, sent)
  {
    hide FragHolds;
    forall k | 0 <= k < FRAG_SLOTS && ch'.frags[k].active ensures FragHolds(p', ch'.frags[k], fp, sent) {
      FragKept(p, ch, p', ch', {FragAt(i)}, fp, sent, k);
    }
  }

  lemma FragLands(p: Pool, ch: Chan, fp: nat, i: nat, idx: nat, data: Message, sent: seq<Message>, w: seq<Owner>)
    requires Owns(p, ch, w) && Tidy(ch) && FragsHold(p, ch, fp, sent)
    requires i < FRAG_SLOTS && ch.frags[i].active && idx !in ch.frags[i].mask
    requires Genuine(ch.frags[i].num, idx, ch.frags[i].total, data, fp, sent)
    ensures var f := FragWrite(ch.frags[i], idx, |data|); FragHolds(Copy(p, f.buf, Offset(idx, fp), data), f, fp, sent)
  {
    var f := ch.frags[i];
    assert FragHolds(p, f, fp, sent);
    StoreKeeps(Buffer(p, f.buf), f, sent[f.num], fp, idx);
    assert At(ch, FragAt(i)) == f.buf != NOBUF;
    hide Offset, Present, FragWrite, Cut, Blit;
  }

  /** A missing fragment is stored. */
  lemma FragStoreGood(p: Pool, ch: Chan, fp: nat, i: nat, idx: nat, data: Message, sent: seq<Message>, w: seq<Owner>)
    requires Owns(p, ch, w) && Tidy(ch) && Good(p, ch, fp, sent) && Settled(ch)
    requires i < FRAG_SLOTS && ch.frags[i].active && idx !in ch.frags[i].mask
    requires Genuine(ch.frags[i].num, idx, ch.frags[i].total, data, fp, sent)
    ensures var f := FragWrite(ch.frags[i], idx, |data|);
            var p2, c2 := Copy(p, f.buf, Offset(idx, fp), data), ch.(frags := ch.frags[i := f]);
      Step(p, ch, w, p2, c2, w, {FragAt(i)}) && Good(p2, c2, fp, sent) && Settled(c2)
  {
    var f0 := ch.frags[i];
    var f := FragWrite(f0, idx, |data|);
    var p2, c2 := Copy(p, f.buf, Offset(idx, fp), data), ch.(frags := ch.frags[i := f]);
    FragWriteOwns(p, ch, i, f, Offset(idx, fp), data, w);
    QueueKept(p, ch, p2, c2, {FragAt(i)});
    HeldKept(p, ch, p2, c2, {FragAt(i)}, sent);
    FragLands(p, ch, fp, i, idx, data, sent, w);
    hide Present, Owns, Aside, Offset, FragWrite, Genuine, Copy;
    forall k | 0 <= k < FRAG_SLOTS && c2.frags[k].active ensures FragHolds(p2, c2.frags[k], fp, sent) {
      if k != i { FragKept(p, ch, p2, c2, {FragAt(i)}, fp, sent, k); }
    }
  }

  lemma FragmentGood(p: Pool, ch: Chan, fp: nat, num: u16, idx: nat, total: nat, data: Message, sent: seq<Message>,
      w: seq<Owner>)
    returns (w': seq<Owner>)
    requires Owns(p, ch, w) && Tidy(ch) && Good(p, ch, fp, sent) && Settled(ch) && Few(sent) && Admissible(fp)
             && ch.kind != UNRELIABLE
    requires Genuine(num, idx, total, data, fp, sent)
    ensures var (p1, c1) := Fragment(p, ch, fp, num, idx, total, data);
      Owns(p1, c1, w') && Tidy(c1) && Aside(p, w, p1, w') && Good(p1, c1, fp, sent) && Settled(c1)
  {
    var (p1, c1, i) := FragSlot(p, ch, num, total);
    w' := FragSlotGood(p, ch, fp, num, sent, w);
    hide FragSlot;
    if i != FRAG_SLOTS && Fresh(c1.frags[i], idx, |data|, fp) {
      assert FragHolds(p1, c1.frags[i], fp, sent);
      var f := FragWrite(c1.frags[i], idx, |data|);
      var p2 := Copy(p1, f.buf, Offset(idx, fp), data);
      var c2 := c1.(frags := c1.frags[i := f]);
      FragStoreGood(p1, c1, fp, i, idx, data, sent, w');
      AsideChain(p, w, p1, w', p2, w');
      if f.have == f.total {
        var w2 := FragDoneGood(p2, c2, fp, i, sent, w');
        AsideChain(p, w, p2, w', FragDone(p2, c2, fp, i).0, w2);
        w' := w2;
      }
    }
  }

  /** A genuine DATA frame, whole or a fragment, early, late or repeated. */
  lemma DataGood(p: Pool, ch: Chan, fp: nat, num: u16, idx: nat, total: nat, data: Message, sent: seq<Message>,
      w: seq<Owner>)
    returns (w': seq<Owner>)
    requires Owns(p, ch, w) && Tidy(ch) && Good(p, ch, fp, sent) && Settled(ch) && Few(sent) && Admissible(fp)
             && ch.kind != UNRELIABLE
    requires Genuine(num, idx, total, data, fp, sent)
    ensures var (p1, c1) := Data(p, ch, fp, num, idx, total, data);
      Owns(p1, c1, w') && Tidy(c1) && Aside(p, w, p1, w') && Good(p1, c1, fp, sent) && Settled(c1)
  {
    hide Owns, Tidy, Aside, Good, Settled, Undisturbed, Arrive, Fragment, Genuine;
    TidyIsShaped(ch);
    var p1, c1;
    if total <= 1 {
      WholeIs(num, idx, total, data, fp, sent);
      var (a, b) := Arrive(p, ch, num, data);
      p1, c1 := a, b;
      w' := ArriveGood(p, ch, fp, num, sent, w);
    } else {
      var (a, b) := Fragment(p, ch, fp, num, idx, total, data);
      p1, c1 := a, b;
      w' := FragmentGood(p, ch, fp, num, idx, total, data, sent, w);
    }
    var c2 := c1.(needAck := true, ackSeq := if c1.recvSeq > 0 then c1.recvSeq - 1 else 0);
    assert Data(p, ch, fp, num, idx, total, data) == (p1, c2);
    hide Data;
    Relabel(p1, c1, w', c2);
    AcksOnly(p1, c1, c2, fp, sent, w');
  }

  lemma TidyIsShaped(ch: Chan)
    requires Tidy(ch)
    ensures Shaped(ch)
  {}

  /** Noting that an acknowledgement is due changes nothing else. */
  lemma AcksOnly(p: Pool, ch: Chan, ch': Chan, fp: nat, sent: seq<Message>, w: seq<Owner>)
    requires Owns(p, ch, w) && Tidy(ch) && Good(p, ch, fp, sent) && Settled(ch)
    requires ch' == ch.(needAck := ch'.needAck, ackSeq := ch'.ackSeq)
    ensures Good(p, ch', fp, sent) && Settled(ch')
  {
    Relabel(p, ch, w, ch');
    hide Owns;
    GoodKept(p, ch, p, ch', fp, sent);
  }

  lemma WholeIs(num: u16, idx: nat, total: nat, data: Message, fp: nat, sent: seq<Message>)
    requires Genuine(num, idx, total, data, fp, sent) && total <= 1
    ensures num < |sent| && |sent[num]| <= MAX_MSG && data == sent[num]
  {
    PieceShape(|sent[num]|, idx, fp);
    assert Offset(0, fp) == 0;
  }
}
