/** What an acknowledgement of netchan-v2 is worth: which messages a sender may give up. */
module V2Acks {
  import opened Bytes
  import opened V2Channel
  import opened V2Pool
  import opened V2Fragments
  import opened V2Receiver
  import opened V2Sender
  import opened V2Conn
  import opened V2System
  import V2Emission

  /** An acknowledgement clears exactly the numbers up to it, and those 2^15 or more ahead. */
  lemma AckedExactly(o: Out, a: u16)
    ensures Acked(o, a) <==> o.active && (a - 0x8000 <= o.num <= a || o.num >= a + 0x8000)
  {}

  const HALF := 0x8000

  /** How far the channel has counted what it received. */
  function RecvAt(c: Conn, id: u8): nat { if id in c.chans && !c.chans[id].sender then c.chans[id].recvSeq else 0 }

  /** Message `n` is still in a slot. */
  predicate Retained(ch: Chan, n: nat)
    requires Shaped(ch)
  {
    exists i :: 0 <= i < SLOTS && ch.out[i].active && ch.out[i].num == n
  }

  /** A pending acknowledgement names a number already counted, or 0; an unreliable channel
      does not count. */
  predicate Pending(ch: Chan) {
    && (ch.needAck ==> !ch.sender && (ch.ackSeq < ch.recvSeq || ch.ackSeq == 0))
    && (ch.kind == UNRELIABLE ==> ch.recvSeq == 0)
  }

  /** Fewer than 2^16 messages, so that a number names one. */
  predicate Low(c: Conn, id: u8) { Few(WrittenAt(c, id)) }

  /** The acknowledgement is not 2^15 or more behind a message that was written. */
  predicate Recent(c: Conn, f: Frame) { f.AckFrame? && Low(c, f.id) ==> |WrittenAt(c, f.id)| <= f.num + HALF }

  /** The same of an acknowledgement on the wire. */
  predicate AckTrue(f: Frame, c: Conn, peer: Conn) {
    f.AckFrame? && Low(peer, f.id) ==> f.num < RecvAt(c, f.id) || f.num == 0
  }

  /** Every message of the channel is in a slot or counted by the peer, except number 0 once
      an acknowledgement of 0 is on the wire. */
  predicate Vouched(c: Conn, id: u8, peer: Conn, wire: set<Frame>)
    requires ConnShaped(c)
  {
    id in c.chans && c.chans[id].sender && c.chans[id].kind != UNRELIABLE && Low(c, id) ==>
      forall n :: 0 <= n < |c.chans[id].written| ==>
        Retained(c.chans[id], n) || n < RecvAt(peer, id) || (n == 0 && AckFrame(id, 0) in wire)
  }

  // ----- the receiving side -----

  lemma {:induction false} DeliverKeeps(p: Pool, ch: Chan)
    requires Shaped(ch)
    ensures |ch.kept| <= |Deliver(p, ch).1.kept|
    decreases Waiting(ch.reorder)
  {
    if Awaited(ch) {
      var (p1, c1) := DeliverOne(p, ch);
      assert |c1.kept| == |ch.kept| + 1;
      WaitingClears(ch.reorder, ch.recvSeq % SLOTS, c1.reorder[ch.recvSeq % SLOTS]);
      hide DeliverOne;
      DeliverKeeps(p1, c1);
    }
  }

  lemma ArriveKeeps(p: Pool, ch: Chan, num: u16, data: Message)
    requires Shaped(ch)
    ensures |ch.kept| <= |Arrive(p, ch, num, data).1.kept|
  {
    if num == ch.recvSeq {
      var (p1, c1) := Accept(p, ch, data);
      assert |c1.kept| == |ch.kept| + 1;
      hide Accept;
      DeliverKeeps(p1, c1);
    }
  }

  lemma FragmentKeeps(p: Pool, ch: Chan, fp: nat, num: u16, idx: nat, total: nat, data: Message)
    requires Shaped(ch)
    ensures var c1 := Fragment(p, ch, fp, num, idx, total, data).1;
      |ch.kept| <= |c1.kept| && (ch.kind == UNRELIABLE ==> c1.recvSeq == ch.recvSeq)
  {
    hide FragSlot, FragWrite, Compact, Copy, Fresh, Inside, Arrive, Enqueue;
    var (p1, c1, i) := FragSlot(p, ch, num, total);
    if i < FRAG_SLOTS {
      var f := FragWrite(c1.frags[i], idx, |data|);
      var p2, c2 := Copy(p1, f.buf, Offset(idx, fp), data), c1.(frags := c1.frags[i := f]);
      var (s, n) := Compact(Buffer(p2, f.buf), fp, f.offsets, f.total, 0, 0);
      ArriveKeeps(Copy(p2, f.buf, 0, s).(overrun := p2.overrun || !Inside(f)), c2, f.num, Part(s, 0, n));
    }
  }

  /** A DATA frame never takes the count back, and the acknowledgement it asks for names a
      message that was counted exactly when any was. */
  lemma DataCounts(p: Pool, ch: Chan, fp: nat, num: u16, idx: nat, total: nat, data: Message)
    requires Shaped(ch) && !ch.sender
    ensures var c1 := Data(p, ch, fp, num, idx, total, data).1;
      && |ch.kept| <= |c1.kept|
      && (ch.kind == UNRELIABLE ==> c1.recvSeq == ch.recvSeq && c1.needAck == ch.needAck && c1.ackSeq == ch.ackSeq)
      && (ch.kind != UNRELIABLE ==> c1.needAck && (c1.ackSeq < c1.recvSeq <==> c1.recvSeq > 0))
      && (Pending(ch) ==> Pending(c1))
  {
    hide Fragment, Arrive, Enqueue;
    ArriveKeeps(p, ch, num, data);
    FragmentKeeps(p, ch, fp, num, idx, total, data);
  }

  // ----- steps that change little -----

  /** Same history and numbering, no new acknowledgement, and the same messages in the slots
      of a channel that keeps them. */
  predicate Mild(ch: Chan, ch': Chan) {
    && Shaped(ch) && Shaped(ch')
    && ch'.sender == ch.sender && ch'.kind == ch.kind && ch'.written == ch.written
    && ch'.recvSeq == ch.recvSeq && ch'.kept == ch.kept
    && (ch'.needAck ==> ch.needAck && ch'.ackSeq == ch.ackSeq)
    && (ch.kind != UNRELIABLE ==>
          forall i :: 0 <= i < SLOTS ==> ch'.out[i].active == ch.out[i].active && ch'.out[i].num == ch.out[i].num)
  }

  predicate ConnMild(c: Conn, c': Conn) {
    && c'.mtu == c.mtu && c'.chans.Keys == c.chans.Keys
    && forall id :: id in c.chans ==> Mild(c.chans[id], c'.chans[id])
  }

  lemma MildChain(a: Conn, b: Conn, c: Conn)
    requires ConnMild(a, b) && ConnMild(b, c)
    ensures ConnMild(a, c)
  {
    forall id | id in a.chans ensures Mild(a.chans[id], c.chans[id]) {
      assert Mild(a.chans[id], b.chans[id]) && Mild(b.chans[id], c.chans[id]);
    }
  }

  lemma WithMild(c: Conn, id: u8, p: Pool, ch: Chan)
    requires ConnShaped(c) && id in c.chans && Mild(c.chans[id], ch)
    ensures ConnMild(c, With(c, id, p, ch))
  {
    forall k | k in c.chans ensures Mild(c.chans[k], With(c, id, p, ch).chans[k]) {
      if k != id { assert Shaped(c.chans[k]); }
    }
  }

  lemma SelfMild(c: Conn)
    requires ConnShaped(c)
    ensures ConnMild(c, c)
  {}

  /** The acknowledgements that go out are pending ones. */
  predicate AcksOf(c: Conn, fs: seq<Frame>) {
    forall k :: 0 <= k < |fs| && fs[k].AckFrame? ==>
      fs[k].id in c.chans && c.chans[fs[k].id].needAck && fs[k].num == c.chans[fs[k].id].ackSeq
  }

  lemma {:induction false} FlushMild(c: Conn, i: nat, pos: nat, mtu: nat)
    requires ConnShaped(c)
    ensures var (c', _, fs) := FlushFrom(c, i, pos, mtu); ConnMild(c, c') && AcksOf(c, fs)
    decreases 256 - i
  {
    hide ConnMild, Mild, AcksOf;
    SelfMild(c);
    if i >= 256 || pos + 6 > mtu {
      NoAcks(c);
    } else if i !in c.chans {
      FlushMild(c, i + 1, pos, mtu);
    } else {
      var (c1, pos1, fs1) := FlushAck(c.chans[i], i, pos, mtu);
      var (c2, pos2, fs2) := FlushWindow(c1, i, pos1, mtu);
      FlushedMild(c, i, pos, mtu);
      hide FlushAck, FlushWindow, Shaped;
      var k := With(c, i, c.pool, c2);
      WithMild(c, i, c.pool, c2);
      FlushMild(k, i + 1, pos2, mtu);
      var (c', _, fs) := FlushFrom(k, i + 1, pos2, mtu);
      MildChain(c, k, c');
      AcksEarlier(c, k, fs);
      AcksJoin(c, fs1 + fs2, fs);
    }
  }

  lemma NoAcks(c: Conn)
    ensures AcksOf(c, [])
  {}

  lemma AcksJoin(c: Conn, fs: seq<Frame>, gs: seq<Frame>)
    requires AcksOf(c, fs) && AcksOf(c, gs)
    ensures AcksOf(c, fs + gs)
  {}

  lemma FlushedMild(c: Conn, i: u8, pos: nat, mtu: nat)
    requires ConnShaped(c) && i in c.chans
    ensures var (c1, pos1, fs1) := FlushAck(c.chans[i], i, pos, mtu);
            var (c2, pos2, fs2) := FlushWindow(c1, i, pos1, mtu);
      Mild(c.chans[i], c2) && AcksOf(c, fs1 + fs2)
  {}

  lemma AcksEarlier(c: Conn, k: Conn, fs: seq<Frame>)
    requires ConnMild(c, k) && AcksOf(k, fs)
    ensures AcksOf(c, fs)
  {
    hide Shaped;
    forall n | 0 <= n < |fs| && fs[n].AckFrame?
      ensures fs[n].id in c.chans && c.chans[fs[n].id].needAck && fs[n].num == c.chans[fs[n].id].ackSeq
    {
      assert Mild(c.chans[fs[n].id], k.chans[fs[n].id]);
    }
  }

  lemma TransmitMild(p: Pool, ch: Chan, j: nat, now: u32)
    requires Shaped(ch) && j < SLOTS
    ensures Mild(ch, Transmit(p, ch, j, now).1)
  {}

  predicate AllData(fs: seq<Frame>) { forall k :: 0 <= k < |fs| ==> fs[k].DataFrame? }

  lemma {:induction false} DataFromMild(c: Conn, i: nat, pos: nat, mtu: nat, now: u32)
    requires ConnShaped(c)
    ensures var (c', _, fs) := DataFrom(c, i, pos, mtu, now); ConnMild(c, c') && AllData(fs)
    decreases 256 - i
  {
    hide NextSendable, Transmit, PieceLen, ConnMild, Mild;
    SelfMild(c);
    if i >= 256 || pos + 9 > mtu {
    } else if i !in c.chans || !c.chans[i].sender || c.chans[i].state != 1 {
      DataFromMild(c, i + 1, pos, mtu, now);
    } else {
      var ch := c.chans[i];
      var j := NextSendable(ch, ch.outHead);
      if j == SLOTS {
        DataFromMild(c, i + 1, pos, mtu, now);
      } else {
        var n := PieceLen(ch.out[j], Payload(c));
        if pos + 8 + n <= mtu {
          var (p, ch1) := Transmit(c.pool, ch, j, now);
          TransmitMild(c.pool, ch, j, now);
          assert FrameOf(c, i, j).DataFrame?;
          hide FrameOf, Shaped;
          var k := With(c, i, p, ch1);
          WithMild(c, i, p, ch1);
          DataFromMild(k, i + 1, pos + 8 + n, mtu, now);
          MildChain(c, k, DataFrom(k, i + 1, pos + 8 + n, mtu, now).0);
        }
      }
    }
  }

  lemma {:induction false} RetransmitMild(ch: Chan, rt: nat, now: u32, j: nat)
    requires Shaped(ch) && j <= SLOTS
    ensures Mild(ch, Retransmit(ch, rt, now, j))
    decreases SLOTS - j
  {
    hide Timeout, Wrap32;
    if j < SLOTS {
      var o := ch.out[j];
      if !o.active || o.sentMs == 0 || Wrap32(now - o.sentMs) < Timeout(rt, o.attempts) {
        RetransmitMild(ch, rt, now, j + 1);
      } else if o.attempts < MAX_RT_ATTEMPTS {
        RetransmitMild(ch.(out := ch.out[j := o.(fragSent := 0, sentMs := now, attempts := o.attempts + 1)]), rt,
            now, j + 1);
      }
    }
  }

  lemma {:induction false} ServiceMild(c: Conn, i: nat, now: u32)
    requires ConnShaped(c)
    ensures ConnMild(c, ServiceFrom(c, i, now))
    decreases 256 - i
  {
    if i >= 256 {
      SelfMild(c);
    } else if i !in c.chans || !c.chans[i].sender || c.chans[i].kind != RELIABLE {
      hide ConnMild;
      ServiceMild(c, i + 1, now);
    } else {
      RetransmitMild(c.chans[i], c.rt, now, 0);
      hide Retransmit;
      var k := With(c, i, c.pool, Retransmit(c.chans[i], c.rt, now, 0));
      WithMild(c, i, c.pool, k.chans[i]);
      hide ConnMild, Mild;
      ServiceMild(k, i + 1, now);
      MildChain(c, k, ServiceFrom(k, i + 1, now));
    }
  }

  // ----- the sending side -----

  lemma MildRetains(ch: Chan, ch': Chan, n: nat)
    requires Mild(ch, ch') && ch.kind != UNRELIABLE && Retained(ch, n)
    ensures Retained(ch', n)
  {
    var i :| 0 <= i < SLOTS && ch.out[i].active && ch.out[i].num == n;
    assert ch'.out[i].active && ch'.out[i].num == n;
  }

  /** A write keeps every message in its slot and puts the new one in another. */
  lemma WriteRetains(p: Pool, ch: Chan, fp: nat, data: Message, n: nat)
    requires Tidy(ch) && Sends(p, ch, fp) && Admissible(fp)
    ensures var (p1, c1, res) := Write(p, ch, fp, data);
      && (Retained(ch, n) ==> Retained(c1, n))
      && (Few(ch.written) && n == |ch.written| < |c1.written| ==> Retained(c1, n))
      && c1.recvSeq == ch.recvSeq && c1.needAck == ch.needAck && c1.ackSeq == ch.ackSeq && c1.kept == ch.kept
  {
    WriteShape(p, ch, fp, data);
    var (p1, c1, res) := Write(p, ch, fp, data);
    if c1 != ch { RingNotFull(p, ch, fp, data); }
    hide Write;
    if c1 != ch {
      RingGrows(ch.outHead, ch.outTail, ch.outTail);
      assert !ch.out[ch.outTail].active;
      assert c1.out[ch.outTail].active && c1.out[ch.outTail].num == ch.sendSeq by { WriteActive(p, ch, fp, data); }
      if Retained(ch, n) {
        var i :| 0 <= i < SLOTS && ch.out[i].active && ch.out[i].num == n;
        assert c1.out[i] == ch.out[i];
      }
    }
  }

  lemma RingNotFull(p: Pool, ch: Chan, fp: nat, data: Message)
    requires Shaped(ch) && Admissible(fp) && Write(p, ch, fp, data).1 != ch
    ensures NextSlot(ch.outTail) != ch.outHead
  {
    hide Pieces;
  }

  lemma WriteActive(p: Pool, ch: Chan, fp: nat, data: Message)
    requires Shaped(ch) && Admissible(fp) && Write(p, ch, fp, data).1 != ch
    ensures var o := Write(p, ch, fp, data).1.out[ch.outTail]; o.active && o.num == ch.sendSeq
  {
    if 0 < |data| <= MAX_MSG { PiecesFit(|data|, fp); }
  }

  lemma {:induction false} AckFromIs(p: Pool, ch: Chan, a: u16, i: nat, k: nat)
    requires Shaped(ch) && i <= SLOTS && k < SLOTS
    ensures AckFrom(p, ch, a, i).1.out[k] ==
            if k >= i && Acked(ch.out[k], a) then ch.out[k].(buf := NOBUF, active := false) else ch.out[k]
    decreases SLOTS - i
  {
    hide Acked;
    if i < SLOTS {
      if Acked(ch.out[i], a) {
        var (p1, c1) := Release(p, ch, i);
        AckFromIs(p1, c1.(inFlight := Wrap32(ch.inFlight - ch.out[i].len)), a, i + 1, k);
      } else {
        AckFromIs(p, ch, a, i + 1, k);
      }
    }
  }

  /** An acknowledgement releases exactly the numbers up to 2^15 below it and those 2^15 or
      more above. */
  lemma AckReleases(p: Pool, ch: Chan, a: u16, n: nat)
    requires Shaped(ch)
    ensures Retained(Ack(p, ch, a).1, n) <==> Retained(ch, n) && !(a - HALF <= n <= a || n >= a + HALF)
  {
    var c1 := Ack(p, ch, a).1;
    forall k | 0 <= k < SLOTS
      ensures c1.out[k] == if Acked(ch.out[k], a) then ch.out[k].(buf := NOBUF, active := false) else ch.out[k]
    {
      AckFromIs(p, ch, a, 0, k);
    }
    hide Ack;
    if Retained(ch, n) && !(a - HALF <= n <= a || n >= a + HALF) {
      var k :| 0 <= k < SLOTS && ch.out[k].active && ch.out[k].num == n;
      assert c1.out[k] == ch.out[k];
    }
  }

  // ----- one end of a connection -----

  predicate AllPending(c: Conn) { forall id :: id in c.chans ==> Pending(c.chans[id]) }

  predicate AcksTrue(fs: set<Frame>, c: Conn, peer: Conn) { forall f :: f in fs ==> AckTrue(f, c, peer) }

  predicate AllVouched(c: Conn, peer: Conn, wire: set<Frame>)
    requires ConnShaped(c)
  {
    forall id: u8 :: Vouched(c, id, peer, wire)
  }

  /** `mine` are the frames this end has sent, `theirs` those of the other. */
  predicate Side(c: Conn, peer: Conn, mine: set<Frame>, theirs: set<Frame>) {
    ConnShaped(c) && AllPending(c) && AcksTrue(mine, c, peer) && AllVouched(c, peer, theirs)
  }

  /** Counting goes forward. */
  predicate Counts(c: Conn, c': Conn, peer: Conn) { forall id: u8 :: Low(peer, id) ==> RecvAt(c, id) <= RecvAt(c', id) }

  lemma MildSide(c: Conn, c': Conn, peer: Conn, mine: set<Frame>, theirs: set<Frame>)
    requires Side(c, peer, mine, theirs) && ConnMild(c, c') && ConnShaped(c')
    ensures Side(c', peer, mine, theirs) && Counts(c, c', peer)
  {
    hide Shaped;
    forall id | id in c'.chans ensures Pending(c'.chans[id]) { assert Mild(c.chans[id], c'.chans[id]); }
    forall id: u8 ensures RecvAt(c', id) == RecvAt(c, id) {
      if id in c.chans { assert Mild(c.chans[id], c'.chans[id]); }
    }
    forall id: u8 ensures Vouched(c', id, peer, theirs) {
      if id in c.chans {
        assert Mild(c.chans[id], c'.chans[id]) && Vouched(c, id, peer, theirs);
        hide Mild;
        MildVouched(c, c', id, peer, theirs);
      }
    }
  }

  lemma MildVouched(c: Conn, c': Conn, id: u8, peer: Conn, theirs: set<Frame>)
    requires ConnShaped(c) && ConnShaped(c') && id in c.chans && id in c'.chans && Mild(c.chans[id], c'.chans[id])
    requires Vouched(c, id, peer, theirs)
    ensures Vouched(c', id, peer, theirs)
  {
    var ch, ch' := c.chans[id], c'.chans[id];
    if ch.sender && ch.kind != UNRELIABLE && Low(c', id) {
      forall n | 0 <= n < |ch'.written|
        ensures Retained(ch', n) || n < RecvAt(peer, id) || (n == 0 && AckFrame(id, 0) in theirs)
      {
        if Retained(ch, n) { MildRetains(ch, ch', n); }
      }
    }
  }

  /** One channel changes. */
  lemma WithSide(c: Conn, peer: Conn, mine: set<Frame>, theirs: set<Frame>, id: u8, p: Pool, ch: Chan)
    requires Side(c, peer, mine, theirs) && Shaped(ch) && Pending(ch)
    requires id in c.chans ==> ch.sender == c.chans[id].sender
                               && (Low(peer, id) ==> RecvAt(c, id) <= ch.recvSeq || ch.sender)
    requires Vouched(With(c, id, p, ch), id, peer, theirs)
    ensures Side(With(c, id, p, ch), peer, mine, theirs) && Counts(c, With(c, id, p, ch), peer)
  {
    hide Shaped, Retained;
    var c' := With(c, id, p, ch);
    forall k: u8 ensures Vouched(c', k, peer, theirs) {
      if k != id { assert Vouched(c, k, peer, theirs); }
    }
    assert Counts(c, c', peer);
    forall f | f in mine ensures AckTrue(f, c', peer) { assert AckTrue(f, c, peer); }
  }

  lemma NewSide(c: Conn, peer: Conn, mine: set<Frame>, theirs: set<Frame>, id: u8, kind: nat, send: bool, state: nat)
    requires Side(c, peer, mine, theirs) && id !in c.chans
    ensures var c' := With(c, id, c.pool, NewChan(kind, send, state, c.window));
      Side(c', peer, mine, theirs) && Counts(c, c', peer)
  {
    WithSide(c, peer, mine, theirs, id, c.pool, NewChan(kind, send, state, c.window));
  }

  lemma WriteSide(c: Conn, peer: Conn, mine: set<Frame>, theirs: set<Frame>, id: u8, data: Message)
    requires Side(c, peer, mine, theirs) && Fine(c, peer) && id in c.chans && c.chans[id].sender
    ensures var c' := WriteTo(c, id, data).0; Side(c', peer, mine, theirs) && Counts(c, c', peer)
  {
    assert Tidy(c.chans[id]) && ChanFine(c.pool, c.chans[id], Payload(c), WrittenAt(peer, id)) by {
      FineChan(c, peer, id);
    }
    var (p, ch, res) := Write(c.pool, c.chans[id], Payload(c), data);
    assert Sends(c.pool, c.chans[id], Payload(c));
    WriteRetains(c.pool, c.chans[id], Payload(c), data, 0);
    WriteShape(c.pool, c.chans[id], Payload(c), data);
    assert ch.written == c.chans[id].written || ch.written == c.chans[id].written + [data];
    hide Write, Fine, Sends;
    var c' := With(c, id, p, ch);
    if ch.kind != UNRELIABLE && Low(c', id) {
      assert Vouched(c, id, peer, theirs);
      forall n | 0 <= n < |ch.written|
        ensures Retained(ch, n) || n < RecvAt(peer, id) || (n == 0 && AckFrame(id, 0) in theirs)
      {
        WriteRetains(c.pool, c.chans[id], Payload(c), data, n);
      }
    }
    WithSide(c, peer, mine, theirs, id, p, ch);
  }

  lemma FineChan(c: Conn, peer: Conn, id: u8)
    requires Fine(c, peer) && id in c.chans
    ensures Tidy(c.chans[id]) && ChanFine(c.pool, c.chans[id], Payload(c), WrittenAt(peer, id))
            && Admissible(Payload(c))
  {
    hide Tidy, ChanFine;
  }

  lemma AckSide(c: Conn, peer: Conn, mine: set<Frame>, theirs: set<Frame>, id: u8, a: u16)
    requires Side(c, peer, mine, theirs) && id in c.chans && c.chans[id].sender
    requires AckFrame(id, a) in theirs && AckTrue(AckFrame(id, a), peer, c) && Recent(c, AckFrame(id, a))
    ensures var c' := Hear(c, AckFrame(id, a)); Side(c', peer, mine, theirs) && Counts(c, c', peer)
  {
    var (p, ch) := Ack(c.pool, c.chans[id], a);
    var c' := With(c, id, p, ch);
    hide Ack;
    if ch.kind != UNRELIABLE && Low(c', id) {
      assert Vouched(c, id, peer, theirs);
      forall n | 0 <= n < |ch.written|
        ensures Retained(ch, n) || n < RecvAt(peer, id) || (n == 0 && AckFrame(id, 0) in theirs)
      {
        if Retained(c.chans[id], n) && n > a { AckReleases(c.pool, c.chans[id], a, n); }
      }
    }
    WithSide(c, peer, mine, theirs, id, p, ch);
  }

  lemma DataSide(c: Conn, peer: Conn, mine: set<Frame>, theirs: set<Frame>, f: Frame)
    requires Side(c, peer, mine, theirs) && Fine(c, peer) && Fine(Hear(c, f), peer)
    requires f.DataFrame? && f.id in c.chans && !c.chans[f.id].sender
    ensures var c' := Hear(c, f); Side(c', peer, mine, theirs) && Counts(c, c', peer)
  {
    var id := f.id;
    var (p, ch) := Data(c.pool, c.chans[id], Payload(c), f.num, f.idx, f.total, f.data);
    DataCounts(c.pool, c.chans[id], Payload(c), f.num, f.idx, f.total, f.data);
    FineChan(c, peer, id);
    FineChan(Hear(c, f), peer, id);
    hide Data, Fine, Retained;
    assert Low(peer, id) ==> c.chans[id].recvSeq <= ch.recvSeq;
    WithSide(c, peer, mine, theirs, id, p, ch);
  }

  lemma ReadMild(p: Pool, ch: Chan, room: nat)
    requires Shaped(ch)
    ensures Mild(ch, Read(p, ch, room).1)
  {}

  /** Frames that go out while the counts stay are true. */
  lemma SentTrue(c: Conn, c': Conn, peer: Conn, mine: set<Frame>, fs: seq<Frame>)
    requires AllPending(c) && AcksOf(c, fs) && ConnMild(c, c') && AcksTrue(mine, c', peer)
    ensures AcksTrue(mine + Elems(fs), c', peer)
  {
    hide Shaped;
    forall f | f in mine + Elems(fs) ensures AckTrue(f, c', peer) {
      if f !in mine {
        var k :| 0 <= k < |fs| && fs[k] == f;
        if f.AckFrame? { assert Pending(c.chans[f.id]) && Mild(c.chans[f.id], c'.chans[f.id]); }
      }
    }
  }

  lemma SendSide(c: Conn, peer: Conn, mine: set<Frame>, theirs: set<Frame>, pos: nat, room: nat, now: u32)
    requires Side(c, peer, mine, theirs)
    ensures var (c', fs) := SendNext(c, pos, room, now); Side(c', peer, mine + Elems(fs), theirs) && Counts(c, c', peer)
  {
    hide ConnMild, Mild, AcksOf, Shaped, FlushFrom, DataFrom, AllData, Vouched;
    FlushMild(c, 0, pos, room);
    var (c1, pos1, fs1) := FlushFrom(c, 0, pos, room);
    DataFromMild(c1, 0, pos1, room, now);
    var (c2, pos2, fs2) := DataFrom(c1, 0, pos1, room, now);
    MildChain(c, c1, c2);
    MildSide(c, c2, peer, mine, theirs);
    DataNoAcks(c, fs2);
    AcksJoin(c, fs1, fs2);
    SentTrue(c, c2, peer, mine, fs1 + fs2);
  }

  lemma DataNoAcks(c: Conn, fs: seq<Frame>)
    requires AllData(fs)
    ensures AcksOf(c, fs)
  {}

  lemma OpenSide(c: Conn, peer: Conn, mine: set<Frame>, theirs: set<Frame>, kind: u8, send: bool)
    requires Side(c, peer, mine, theirs)
    ensures var c' := OpenChan(c, kind, send); Side(c', peer, mine, theirs) && Counts(c, c', peer)
  {
    hide Side, Shaped, NewChan;
    var id := c.nextId;
    SameSide(c, c, peer, mine, theirs);
    if id !in c.chans {
      var c1 := c.(nextId := if id >= 254 then id - 254 else id + 2);
      SameSide(c, c1, peer, mine, theirs);
      if |c.chans| < MAX_CHAN {
        NewSide(c1, peer, mine, theirs, id, kind, send, if send then 0 else 1);
        CountsOn(c, c1, With(c1, id, c.pool, NewChan(kind, send, if send then 0 else 1, c.window)), peer);
      }
    }
  }

  lemma CloseSide(c: Conn, peer: Conn, mine: set<Frame>, theirs: set<Frame>, id: u8)
    requires Side(c, peer, mine, theirs)
    ensures var c' := CloseChan(c, id); Side(c', peer, mine, theirs) && Counts(c, c', peer)
  {
    hide Shaped, AllVouched, AcksTrue, AllPending;
    if id in c.chans && c.chans[id].state < 2 { RelabelSide(c, peer, mine, theirs, id, c.chans[id].(state := 2)); }
  }

  lemma ReadSide(c: Conn, peer: Conn, mine: set<Frame>, theirs: set<Frame>, id: u8, room: nat)
    requires Side(c, peer, mine, theirs)
    ensures var c' := ReadFrom(c, id, room).0; Side(c', peer, mine, theirs) && Counts(c, c', peer)
  {
    hide Shaped, AllVouched, AcksTrue, AllPending, Read, Mild, ConnMild;
    if id in c.chans {
      var (p, ch, _) := Read(c.pool, c.chans[id], room);
      ReadMild(c.pool, c.chans[id], room);
      WithMild(c, id, p, ch);
      MildSide(c, With(c, id, p, ch), peer, mine, theirs);
    }
  }

  lemma CallSide(c: Conn, peer: Conn, mine: set<Frame>, theirs: set<Frame>, call: Call)
    requires Side(c, peer, mine, theirs) && Fine(c, peer) && !call.Feed?
    ensures var (c', fs) := Do(c, call); Side(c', peer, mine + Elems(fs), theirs) && Counts(c, c', peer)
  {
    hide Fine, Shaped, AllVouched, AcksTrue, AllPending, ConnMild, SendNext, ServiceFrom, OpenChan, CloseChan,
         ReadFrom, WriteTo;
    assert mine + Elems([]) == mine;
    match call
    case Open(kind, send) => OpenSide(c, peer, mine, theirs, kind, send);
    case Close(id) => CloseSide(c, peer, mine, theirs, id);
    case WriteCall(id, data) =>
      WrongEnd(c, id, data, 0);
      if id in c.chans && c.chans[id].sender { WriteSide(c, peer, mine, theirs, id, data); }
    case ReadCall(id, room) => ReadSide(c, peer, mine, theirs, id, room);
    case Send(pos, room, now) => SendSide(c, peer, mine, theirs, pos, room, now);
    case Service(now) =>
      ServiceMild(c, 0, now);
      MildSide(c, ServiceFrom(c, 0, now), peer, mine, theirs);
  }

  lemma SameSide(c: Conn, c': Conn, peer: Conn, mine: set<Frame>, theirs: set<Frame>)
    requires Side(c, peer, mine, theirs) && c'.chans == c.chans && c'.mtu == c.mtu
    ensures Side(c', peer, mine, theirs) && Counts(c, c', peer) && forall id: u8 :: RecvAt(c', id) == RecvAt(c, id)
  {
    forall f | f in mine ensures AckTrue(f, c', peer) { assert AckTrue(f, c, peer); }
    forall id: u8 ensures Vouched(c', id, peer, theirs) { assert Vouched(c, id, peer, theirs); }
  }

  lemma CountsOn(c: Conn, c1: Conn, c2: Conn, peer: Conn)
    requires (forall id: u8 :: RecvAt(c1, id) == RecvAt(c, id)) && Counts(c1, c2, peer)
    ensures Counts(c, c2, peer)
  {}

  lemma RelabelSide(c: Conn, peer: Conn, mine: set<Frame>, theirs: set<Frame>, id: u8, ch: Chan)
    requires Side(c, peer, mine, theirs) && id in c.chans
    requires ch == c.chans[id].(state := ch.state, sendWindow := ch.sendWindow)
    ensures Side(With(c, id, c.pool, ch), peer, mine, theirs) && Counts(c, With(c, id, c.pool, ch), peer)
  {
    WithMild(c, id, c.pool, ch);
    MildSide(c, With(c, id, c.pool, ch), peer, mine, theirs);
  }

  lemma HearSide(c: Conn, peer: Conn, mine: set<Frame>, theirs: set<Frame>, f: Frame)
    requires Side(c, peer, mine, theirs) && Fine(c, peer) && Fine(Hear(c, f), peer)
    requires f.AckFrame? ==> f in theirs && AckTrue(f, peer, c) && Recent(c, f)
    ensures var c' := Hear(c, f); Side(c', peer, mine, theirs) && Counts(c, c', peer)
  {
    hide Fine, Shaped, Mild, Vouched, Data, Ack, NewChan, AckTrue;
    SelfMild(c);
    MildSide(c, c, peer, mine, theirs);
    match f
    case DataFrame(id, _, _, _, _) =>
      if id in c.chans && !c.chans[id].sender { DataSide(c, peer, mine, theirs, f); }
    case AckFrame(id, a) =>
      if id in c.chans && c.chans[id].sender { AckSide(c, peer, mine, theirs, id, a); }
    case WindowFrame(id, window) =>
      if id in c.chans && c.chans[id].sender {
        var ch := c.chans[id];
        RelabelSide(c, peer, mine, theirs, id,
            ch.(sendWindow := window, state := if ch.state == 0 then 1 else ch.state));
      }
    case OpenFrame(id, kind, theySend) =>
      if id !in c.chans && |c.chans| < MAX_CHAN { NewSide(c, peer, mine, theirs, id, kind, !theySend, 1); }
    case CloseFrame(id) =>
      if id in c.chans { RelabelSide(c, peer, mine, theirs, id, c.chans[id].(state := 3)); }
  }

  /** The other end: its channels are as they were, and the counts it relies on went forward. */
  lemma LooksOn(y: Conn, c: Conn, c': Conn, mine: set<Frame>, theirs: set<Frame>, fs: seq<Frame>)
    requires Side(y, c, mine, theirs) && Counts(c, c', y) && Grows(c, c')
    ensures Side(y, c', mine, theirs + Elems(fs))
  {
    hide Retained, Shaped;
    forall f | f in mine ensures AckTrue(f, y, c') {
      assert AckTrue(f, y, c);
      if f.AckFrame? { assert |WrittenAt(c, f.id)| <= |WrittenAt(c', f.id)|; }
    }
    forall id: u8 ensures Vouched(y, id, c', theirs + Elems(fs)) {
      assert Vouched(y, id, c, theirs);
      assert Low(y, id) ==> RecvAt(c, id) <= RecvAt(c', id);
    }
  }

  // ----- every run in which acknowledgements come from the wire -----

  /** As before, except that acknowledgements too are delivered only if they were sent, and
      not when they are too old. */
  predicate FromWire(s: Sys, e: Event) {
    && (e.ToA? && e.frame.AckFrame? ==> e.frame in s.fromB && Recent(s.a, e.frame))
    && (e.ToB? && e.frame.AckFrame? ==> e.frame in s.fromA && Recent(s.b, e.frame))
  }

  predicate AllFromWire(s: Sys, es: seq<Event>)
    requires ConnShaped(s.a) && ConnShaped(s.b)
  {
    es == [] || (AllFromWire(s, es[..|es| - 1]) && FromWire(RunSys(s, es[..|es| - 1]), es[|es| - 1]))
  }

  ghost predicate AckInv(s: Sys) { Inv(s) && Side(s.a, s.b, s.fromA, s.fromB) && Side(s.b, s.a, s.fromB, s.fromA) }

  /** A count never exceeds what was written. */
  lemma CountBound(c: Conn, peer: Conn, id: u8)
    requires Fine(c, peer) && AllPending(c) && Low(peer, id)
    ensures RecvAt(c, id) <= |WrittenAt(peer, id)|
  {
    if id in c.chans {
      FineChan(c, peer, id);
      assert Pending(c.chans[id]);
    }
    hide Fine;
  }

  /** A call at `x`, seen from both ends. */
  lemma CallBoth(x: Conn, y: Conn, fromX: set<Frame>, fromY: set<Frame>, call: Call)
    requires Fine(x, y) && Side(x, y, fromX, fromY) && Side(y, x, fromY, fromX) && !call.Feed?
    ensures var (x', fs) := Do(x, call); Side(x', y, fromX + Elems(fs), fromY) && Side(y, x', fromY, fromX + Elems(fs))
  {
    hide Side, Counts, Grows, AllFine, Do;
    assert ConnShaped(x) by { assert Fine(x, y); }
    hide Fine;
    CallSide(x, y, fromX, fromY, call);
    DoGrows(x, y, call);
    var (x', fs) := Do(x, call);
    LooksOn(y, x, x', fromY, fromX, fs);
  }

  lemma AckBound(x: Conn, y: Conn, fromX: set<Frame>, fromY: set<Frame>, f: Frame)
    requires Fine(y, x) && Side(y, x, fromY, fromX) && f.AckFrame? && f in fromY
    ensures AckTrue(f, y, x) && (Low(x, f.id) ==> RecvAt(y, f.id) <= |WrittenAt(x, f.id)|)
  {
    hide Fine, AllVouched, RecvAt;
    if Low(x, f.id) { CountBound(y, x, f.id); }
  }

  /** The arrival of a frame at `x`. */
  lemma HearBoth(x: Conn, y: Conn, fromX: set<Frame>, fromY: set<Frame>, f: Frame)
    requires ConnShaped(x) && Fine(x, y) && Fine(y, x) && Fine(Hear(x, f), y)
    requires Side(x, y, fromX, fromY) && Side(y, x, fromY, fromX)
    requires f.AckFrame? ==> f in fromY && Recent(x, f)
    ensures var x' := Hear(x, f); Side(x', y, fromX, fromY) && Side(y, x', fromY, fromX)
  {
    hide Fine, Side, Counts, Grows, Hear, AckTrue, RecvAt, Shaped, Recent;
    if f.AckFrame? { AckBound(x, y, fromX, fromY, f); }
    HearSide(x, y, fromX, fromY, f);
    HearGrows(x, f);
    LooksOn(y, x, Hear(x, f), fromY, fromX, []);
    assert fromX + Elems([]) == fromX;
  }

  lemma BothFine(s: Sys)
    requires Inv(s)
    ensures Fine(s.a, s.b) && Fine(s.b, s.a)
  {
    hide Fine, WireFine;
  }

  lemma HappenAcks(s: Sys, e: Event)
    requires ConnShaped(s.a) && ConnShaped(s.b) && AckInv(s) && FromWire(s, e)
    ensures AckInv(Happen(s, e))
  {
    hide Inv, Fine, Side, Do, Hear, WireFine, Shaped;
    HappenKeeps(s, e);
    BothFine(s);
    BothFine(Happen(s, e));
    match e
    case AtA(call) => if !call.Feed? { CallBoth(s.a, s.b, s.fromA, s.fromB, call); }
    case AtB(call) => if !call.Feed? { CallBoth(s.b, s.a, s.fromB, s.fromA, call); }
    case ToA(f) => if !f.DataFrame? || f in s.fromB { HearBoth(s.a, s.b, s.fromA, s.fromB, f); }
    case ToB(f) => if !f.DataFrame? || f in s.fromA { HearBoth(s.b, s.a, s.fromB, s.fromA, f); }
  }

  lemma {:induction false} RunAcks(s: Sys, es: seq<Event>)
    requires AckInv(s) && ConnShaped(s.a) && ConnShaped(s.b) && AllFromWire(s, es)
    ensures AckInv(RunSys(s, es))
  {
    hide AckInv;
    if es != [] {
      RunAcks(s, es[..|es| - 1]);
      HappenAcks(RunSys(s, es[..|es| - 1]), es[|es| - 1]);
    }
  }

  lemma StartAcks(mtu: nat, window: u32, window': u32, rt: nat, rt': nat)
    requires mtu > OVERHEAD && Admissible(mtu - OVERHEAD)
    ensures AckInv(Start(mtu, window, window', rt, rt'))
  {
    StartHolds(mtu, window, window', rt, rt');
    hide Inv;
  }

  /** In every run in which recent acknowledgements come from the wire, whichever end sends: a
      message of a reliable channel that is in no slot any more has been counted by the
      other end, unless it is number 0 and an acknowledgement of 0 is on the wire. */
  lemma ReleasedIsCounted(mtu: nat, window: u32, window': u32, rt: nat, rt': nat, es: seq<Event>, id: u8)
    requires mtu > OVERHEAD && Admissible(mtu - OVERHEAD)
    requires var s0 := Start(mtu, window, window', rt, rt'); ConnShaped(s0.a) && ConnShaped(s0.b) && AllFromWire(s0, es)
    ensures var s := RunSys(Start(mtu, window, window', rt, rt'), es);
      Vouched(s.a, id, s.b, s.fromB) && Vouched(s.b, id, s.a, s.fromA)
  {
    var s0 := Start(mtu, window, window', rt, rt');
    StartAcks(mtu, window, window', rt, rt');
    RunAcks(s0, es);
    hide RunSys, Start, Vouched, Inv;
  }

  /** An acknowledgement from the wire makes the sender give up a message the other end has
      not counted exactly when that is number 0 and the other end has counted nothing, or
      the acknowledgement is 2^15 or more behind it. */
  lemma GivesUp(x: Conn, y: Conn, fromX: set<Frame>, fromY: set<Frame>, id: u8, a: u16, n: nat)
    requires Fine(y, x) && Side(y, x, fromY, fromX) && AckFrame(id, a) in fromY
    requires ConnShaped(x) && id in x.chans && x.chans[id].sender && Low(x, id)
    requires n < |x.chans[id].written| && Retained(x.chans[id], n)
    ensures !Retained(Hear(x, AckFrame(id, a)).chans[id], n) && n >= RecvAt(y, id) <==>
      n >= RecvAt(y, id) && ((n == 0 && RecvAt(y, id) == 0) || n >= a + HALF)
  {
    hide Fine, Side, Ack, Retained;
    AckBound(x, y, fromX, fromY, AckFrame(id, a));
    AckReleases(x.pool, x.chans[id], a, n);
  }

  /** The same in every run, at either end. */
  lemma GivesUpExactly(s: Sys, es: seq<Event>, atA: bool, id: u8, a: u16, n: nat)
    requires AckInv(s) && ConnShaped(s.a) && ConnShaped(s.b) && AllFromWire(s, es)
    requires var s1 := RunSys(s, es);
             var (x, fromY) := if atA then (s1.a, s1.fromB) else (s1.b, s1.fromA);
      && AckFrame(id, a) in fromY && id in x.chans && x.chans[id].sender && Low(x, id)
      && n < |x.chans[id].written| && Retained(x.chans[id], n)
    ensures var s1 := RunSys(s, es);
            var (x, y) := if atA then (s1.a, s1.b) else (s1.b, s1.a);
      !Retained(Hear(x, AckFrame(id, a)).chans[id], n) && n >= RecvAt(y, id) <==>
      n >= RecvAt(y, id) && ((n == 0 && RecvAt(y, id) == 0) || n >= a + HALF)
  {
    RunAcks(s, es);
    var s1 := RunSys(s, es);
    hide RunSys, Retained, Hear, Inv, Fine, Side, WireFine, AllFromWire;
    BothFine(s1);
    if atA {
      GivesUp(s1.a, s1.b, s1.fromA, s1.fromB, id, a, n);
    } else {
      GivesUp(s1.b, s1.a, s1.fromB, s1.fromA, id, a, n);
    }
  }

  // ----- a run that loses message 0 -----

  /** The run `es` ends in `s`. */
  predicate Reaches(s0: Sys, es: seq<Event>, s: Sys) {
    ConnShaped(s0.a) && ConnShaped(s0.b) && AllFromWire(s0, es) && s == RunSys(s0, es)
  }

  lemma ReachNext(s0: Sys, es: seq<Event>, s: Sys, e: Event)
    requires Reaches(s0, es, s) && FromWire(s, e)
    ensures ConnShaped(s.a) && ConnShaped(s.b) && Reaches(s0, es + [e], Happen(s, e))
  {
    assert (es + [e])[..|es + [e]| - 1] == es;
  }

  /** Channel 0 is a reliable one for sending, holding messages 0 and 1 of one
      fragment each, of which `sent` went out. */
  predicate Queued(c: Conn, sent: nat) {
    && ConnShaped(c) && 0 in c.chans && V2Emission.Quiet(c)
    && var ch := c.chans[0];
       && ch.sender && ch.kind == RELIABLE && ch.state == 1 && ch.outHead == 0 && ch.outTail == 2 && |ch.written| == 2
       && (forall i :: 0 <= i < 2 ==>
             ch.out[i].active && ch.out[i].num == i && ch.out[i].fragTotal == 1
             && ch.out[i].fragSent == if i < sent then 1 else 0)
  }

  lemma Opens(mtu: nat, window: u32, rt: nat)
    requires mtu > OVERHEAD
    ensures ConnShaped(NewConn(mtu, window, rt, false))
    ensures var c := Hear(OpenChan(NewConn(mtu, window, rt, false), RELIABLE, true), WindowFrame(0, 2));
      && c.mtu == mtu && c.pool == PoolInit() && c.chans.Keys == {0}
      && c.chans[0] == NewChan(RELIABLE, true, 0, window).(state := 1, sendWindow := 2)
  {}

  lemma Writes(c: Conn, window: u32, m: Message, m': Message)
    requires ConnShaped(c) && Admissible(Payload(c)) && c.chans.Keys == {0} && |c.pool.free| >= 2 && |m| == |m'| == 1
    requires forall k :: 0 <= k < |c.pool.free| ==> c.pool.free[k] != NOBUF
    requires c.chans[0] == NewChan(RELIABLE, true, 0, window).(state := 1, sendWindow := 2)
    ensures var c2 := WriteTo(WriteTo(c, 0, m).0, 0, m').0; Queued(c2, 0) && c2.mtu == c.mtu
  {
    OneByte(Payload(c));
    hide Pieces;
  }

  lemma OneByte(fp: nat)
    requires fp > 0
    ensures Pieces(1, fp) == 1
  {}

  lemma SendsQueued(c: Conn, sent: nat, now: u32)
    requires Queued(c, sent) && sent < 2
    ensures var (c', fs) := SendNext(c, V2Emission.HEADER, c.mtu, now);
      && Queued(c', sent + 1) && c'.mtu == c.mtu
      && exists f :: f in fs && f.DataFrame? && f.id == 0 && f.num == sent && f.total == 1
  {
    var j := NextSendable(c.chans[0], 0);
    assert j == sent by { if sent == 1 { assert NextSendable(c.chans[0], 1) == 1; } }
    V2Emission.SendsNext(c, 0, now);
    var (c', fs) := SendNext(c, V2Emission.HEADER, c.mtu, now);
    assert FrameOf(c, 0, j) in fs && FrameOf(c, 0, j).num == sent;
  }

  /** The run up to both ends having the channel. */
  lemma Opened(mtu: nat, window: u32, window': u32, rt: nat, rt': nat) returns (es: seq<Event>, s: Sys)
    requires mtu > OVERHEAD
    ensures var s0 := Start(mtu, window, window', rt, rt');
      && Reaches(s0, es, s) && s.a == Hear(OpenChan(s0.a, RELIABLE, true), WindowFrame(0, 2))
      && s.b == Hear(s0.b, OpenFrame(0, RELIABLE, true))
  {
    var s0 := Start(mtu, window, window', rt, rt');
    assert Reaches(s0, [], s0);
    hide Reaches, OpenChan, Hear, Shaped;
    ReachNext(s0, [], s0, AtA(Open(RELIABLE, true)));
    es, s := [] + [AtA(Open(RELIABLE, true))], Happen(s0, AtA(Open(RELIABLE, true)));
    ReachNext(s0, es, s, ToA(WindowFrame(0, 2)));
    es, s := es + [ToA(WindowFrame(0, 2))], Happen(s, ToA(WindowFrame(0, 2)));
    ReachNext(s0, es, s, ToB(OpenFrame(0, RELIABLE, true)));
    es, s := es + [ToB(OpenFrame(0, RELIABLE, true))], Happen(s, ToB(OpenFrame(0, RELIABLE, true)));
  }

  /** What they then have. */
  lemma BothOpen(mtu: nat, window: u32, window': u32, rt: nat, rt': nat) returns (es: seq<Event>, s: Sys)
    requires mtu > OVERHEAD
    ensures Reaches(Start(mtu, window, window', rt, rt'), es, s) && ConnShaped(s.a) && ConnShaped(s.b)
    ensures s.a.mtu == mtu && s.a.pool == PoolInit() && s.a.chans.Keys == {0}
    ensures s.a.chans[0] == NewChan(RELIABLE, true, 0, window).(state := 1, sendWindow := 2)
    ensures s.b.mtu == mtu && 0 in s.b.chans && s.b.chans[0] == NewChan(RELIABLE, false, 1, window')
  {
    hide Reaches, OpenChan, NewChan, Shaped;
    es, s := Opened(mtu, window, window', rt, rt');
    Opens(mtu, window, rt);
  }

  /** The run up to both messages being on the wire. */
  lemma BothSent(s0: Sys, es0: seq<Event>, s1: Sys, window: u32) returns (es: seq<Event>, s: Sys, f: Frame)
    requires Reaches(s0, es0, s1) && ConnShaped(s1.a) && Admissible(Payload(s1.a))
    requires s1.a.pool == PoolInit() && s1.a.chans.Keys == {0}
    requires s1.a.chans[0] == NewChan(RELIABLE, true, 0, window).(state := 1, sendWindow := 2)
    ensures Reaches(s0, es, s) && Queued(s.a, 2) && s.b == s1.b
    ensures f in s.fromA && f.DataFrame? && f.id == 0 && f.num == 1 && f.total == 1
  {
    hide Reaches, WriteTo, SendNext, Queued, Shaped, NewChan, Do;
    var m: Message, m': Message := [1], [2];
    Writes(s1.a, window, m, m');
    es, s := WritesOne(s0, es0, s1, m);
    es, s := WritesOne(s0, es, s, m');
    es, s, f := SendsOne(s0, es, s, 0);
    es, s, f := SendsOne(s0, es, s, 1);
  }

  lemma WritesOne(s0: Sys, es0: seq<Event>, s1: Sys, m: Message) returns (es: seq<Event>, s: Sys)
    requires ConnShaped(s1.a) && Reaches(s0, es0, s1)
    ensures ConnShaped(s.a) && Reaches(s0, es, s) && s.a == WriteTo(s1.a, 0, m).0 && s.b == s1.b
  {
    hide Reaches, WriteTo, Shaped;
    var e := AtA(WriteCall(0, m));
    ReachNext(s0, es0, s1, e);
    es, s := es0 + [e], Happen(s1, e);
  }

  lemma SendsOne(s0: Sys, es0: seq<Event>, s1: Sys, sent: nat) returns (es: seq<Event>, s: Sys, f: Frame)
    requires Reaches(s0, es0, s1) && Queued(s1.a, sent) && sent < 2
    ensures Reaches(s0, es, s) && Queued(s.a, sent + 1) && s.b == s1.b
    ensures f in s.fromA && f.DataFrame? && f.id == 0 && f.num == sent && f.total == 1
  {
    SendsQueued(s1.a, sent, 1);
    hide Reaches, SendNext, Queued, Shaped;
    var e := AtA(Send(V2Emission.HEADER, s1.a.mtu, 1));
    ReachNext(s0, es0, s1, e);
    es, s := es0 + [e], Happen(s1, e);
    f :| f in SendNext(s1.a, V2Emission.HEADER, s1.a.mtu, 1).1 && f.DataFrame? && f.id == 0 && f.num == sent
        && f.total == 1;
  }

  lemma AckGoesOut(c: Conn, f: Frame)
    requires ConnShaped(c) && c.mtu >= 13 && 0 in c.chans && !c.chans[0].sender && c.chans[0].kind == RELIABLE
    requires c.chans[0].recvSeq == 0 && f.DataFrame? && f.id == 0 && f.num == 1 && f.total == 1
    ensures var (c', fs) := SendNext(Hear(c, f), V2Emission.HEADER, c.mtu, 1);
            AckFrame(0, 0) in fs && RecvAt(c', 0) == 0
  {
    var c1 := Hear(c, f);
    assert c1.chans[0].needAck && c1.chans[0].ackSeq == 0 && RecvAt(c1, 0) == 0 by { hide Hold; }
    hide Hear;
    FlushMild(c1, 0, V2Emission.HEADER, c.mtu);
    var (c2, pos2, fs2) := FlushFrom(c1, 0, V2Emission.HEADER, c.mtu);
    assert fs2[0] == AckFrame(0, 0);
    hide FlushFrom, DataFrom, AcksOf;
    DataFromMild(c2, 0, pos2, c.mtu, 1);
    var c3 := DataFrom(c2, 0, pos2, c.mtu, 1).0;
    MildChain(c1, c2, c3);
    assert Mild(c1.chans[0], c3.chans[0]);
  }

  /** The second message arrives and is acknowledged. */
  lemma SecondHeard(s0: Sys, es0: seq<Event>, s1: Sys, window: u32, f: Frame) returns (es: seq<Event>, s: Sys)
    requires Reaches(s0, es0, s1) && ConnShaped(s1.b) && s1.b.mtu >= 13 && 0 in s1.b.chans
    requires s1.b.chans[0] == NewChan(RELIABLE, false, 1, window)
    requires f in s1.fromA && f.DataFrame? && f.id == 0 && f.num == 1 && f.total == 1
    ensures Reaches(s0, es, s) && s.a == s1.a && AckFrame(0, 0) in s.fromB && RecvAt(s.b, 0) == 0
  {
    AckGoesOut(s1.b, f);
    hide Reaches, Hear, SendNext, Shaped, NewChan, RecvAt;
    ReachNext(s0, es0, s1, ToB(f));
    es, s := es0 + [ToB(f)], Happen(s1, ToB(f));
    var e := AtB(Send(V2Emission.HEADER, s1.b.mtu, 1));
    ReachNext(s0, es, s, e);
    es, s := es + [e], Happen(s, e);
  }

  lemma FirstGone(s0: Sys, es0: seq<Event>, s1: Sys) returns (es: seq<Event>, s: Sys)
    requires AckInv(s0) && Reaches(s0, es0, s1) && Queued(s1.a, 2) && AckFrame(0, 0) in s1.fromB && RecvAt(s1.b, 0) == 0
    ensures Reaches(s0, es, s) && s.b == s1.b && ConnShaped(s.a) && 0 in s.a.chans && !Retained(s.a.chans[0], 0)
    ensures s.a.chans[0].sender && s.a.chans[0].kind == RELIABLE && |s.a.chans[0].written| == 2
  {
    assert Retained(s1.a.chans[0], 0) by { assert s1.a.chans[0].out[0].num == 0; }
    GivesUpExactly(s0, es0, true, 0, 0, 0);
    hide Reaches, Ack, Shaped, AckInv, Retained, RunSys, RecvAt;
    ReachNext(s0, es0, s1, ToA(AckFrame(0, 0)));
    es, s := es0 + [ToA(AckFrame(0, 0))], Happen(s1, ToA(AckFrame(0, 0)));
  }

  /** The second message arrives first and its acknowledgement makes the sender give up the
      first, which nobody has received. */
  lemma FirstMessageLost(mtu: nat, window: u32, window': u32, rt: nat, rt': nat) returns (es: seq<Event>, s: Sys)
    requires mtu > OVERHEAD && Admissible(mtu - OVERHEAD)
    ensures Reaches(Start(mtu, window, window', rt, rt'), es, s) && ConnShaped(s.a) && 0 in s.a.chans
    ensures s.a.chans[0].sender && s.a.chans[0].kind == RELIABLE && |s.a.chans[0].written| == 2
    ensures !Retained(s.a.chans[0], 0) && RecvAt(s.b, 0) == 0
  {
    hide Start, Reaches, Hear, OpenChan, Queued, NewChan, Shaped, AckInv, Retained, RecvAt;
    var s0 := Start(mtu, window, window', rt, rt');
    es, s := BothOpen(mtu, window, window', rt, rt');
    StartAcks(mtu, window, window', rt, rt');
    var f;
    es, s, f := BothSent(s0, es, s, window);
    es, s := SecondHeard(s0, es, s, window', f);
    es, s := FirstGone(s0, es, s);
  }
}
