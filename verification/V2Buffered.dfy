/** What recv_buffered of netchan-v2 counts: the bytes queued, and those that reads into too
    little room have cut off. */
module V2Buffered {
  import opened Bytes
  import opened V2Channel
  import opened V2Conn

  /** The lengths of the entries from ring index `i` to `tail`. */
  function Between(rq: seq<Entry>, i: nat, tail: nat): nat
    requires |rq| == SLOTS && i < SLOTS && tail < SLOTS
    decreases Distance(i, tail)
  {
    if i == tail then 0 else rq[i].len + Between(rq, NextSlot(i), tail)
  }

  function Queued(ch: Chan): nat
    requires Shaped(ch)
  {
    Between(ch.rq, ch.rqHead, ch.rqTail)
  }

  /** How far the counter is above the bytes queued. */
  function Excess(ch: Chan): u32
    requires Shaped(ch)
  {
    Wrap32(ch.recvBuffered - Queued(ch))
  }

  lemma {:induction false} Appended(rq: seq<Entry>, i: nat, tail: nat, e: Entry)
    requires |rq| == SLOTS && i < SLOTS && tail < SLOTS && NextSlot(tail) != i
    ensures Between(rq[tail := e], i, NextSlot(tail)) == Between(rq, i, tail) + e.len
    decreases Distance(i, tail)
  {
    if i == tail {
      assert Between(rq[tail := e], NextSlot(tail), NextSlot(tail)) == 0;
    } else {
      Appended(rq, NextSlot(i), tail, e);
    }
  }

  lemma {:induction false} Outside(rq: seq<Entry>, i: nat, tail: nat, k: nat, e: Entry)
    requires |rq| == SLOTS && i < SLOTS && tail < SLOTS && k < SLOTS && Distance(i, tail) <= Distance(i, k)
    ensures Between(rq[k := e], i, tail) == Between(rq, i, tail)
    decreases Distance(i, tail)
  {
    if i != tail { Outside(rq, NextSlot(i), tail, k, e); }
  }

  lemma EnqueueExcess(p: Pool, ch: Chan, data: Message)
    requires Shaped(ch)
    ensures Excess(Enqueue(p, ch, data).1) == Excess(ch)
  {
    if NextSlot(ch.rqTail) != ch.rqHead && |data| <= MAX_MSG {
      var (p1, b) := PoolGet(p);
      Appended(ch.rq, ch.rqHead, ch.rqTail, Entry(b, |data|));
      Shifted(ch.recvBuffered + |data|, Queued(ch) + |data|, ch.recvBuffered, Queued(ch));
    }
    hide Between, Wrap32;
  }

  /** The difference of two counts does not notice the wrapping of one. */
  lemma Shifted(a: int, b: int, c: int, d: int)
    requires a - b == c - d
    ensures Wrap32(Wrap32(a) - b) == Wrap32(c - d)
  {}

  lemma AcceptExcess(p: Pool, ch: Chan, data: Message)
    requires Shaped(ch)
    ensures Excess(Accept(p, ch, data).1) == Excess(ch)
  {
    EnqueueExcess(p, ch, data);
    hide Enqueue;
  }

  lemma {:induction false} DeliverExcess(p: Pool, ch: Chan)
    requires Shaped(ch)
    ensures Excess(Deliver(p, ch).1) == Excess(ch)
    decreases Waiting(ch.reorder)
  {
    if Awaited(ch) {
      var (p1, c1) := DeliverOne(p, ch);
      var e := ch.reorder[ch.recvSeq % SLOTS];
      AcceptExcess(p, ch, Content(p, e.buf, e.len));
      assert Excess(c1) == Excess(ch) by { hide Accept; }
      WaitingClears(ch.reorder, ch.recvSeq % SLOTS, c1.reorder[ch.recvSeq % SLOTS]);
      hide DeliverOne, Excess;
      DeliverExcess(p1, c1);
    }
  }

  lemma ArriveExcess(p: Pool, ch: Chan, num: u16, data: Message)
    requires Shaped(ch)
    ensures Excess(Arrive(p, ch, num, data).1) == Excess(ch)
  {
    if num == ch.recvSeq {
      var (p1, c1) := Accept(p, ch, data);
      AcceptExcess(p, ch, data);
      hide Accept;
      DeliverExcess(p1, c1);
    }
    hide Hold;
  }

  lemma DoneExcess(p: Pool, ch: Chan, fp: nat, i: nat)
    requires Shaped(ch) && i < FRAG_SLOTS
    ensures Excess(FragDone(p, ch, fp, i).1) == Excess(ch)
  {
    hide Inside, Compact, Arrive, Enqueue;
    var f := ch.frags[i];
    var (s, n) := Compact(Buffer(p, f.buf), fp, f.offsets, f.total, 0, 0);
    var p1 := Copy(p, f.buf, 0, s).(overrun := p.overrun || !Inside(f));
    ArriveExcess(p1, ch, f.num, Part(s, 0, n));
    EnqueueExcess(p1, ch, Part(s, 0, n));
  }

  lemma FragmentExcess(p: Pool, ch: Chan, fp: nat, num: u16, idx: nat, total: nat, data: Message)
    requires Shaped(ch)
    ensures Excess(Fragment(p, ch, fp, num, idx, total, data).1) == Excess(ch)
  {
    var (p1, c1, i) := FragSlot(p, ch, num, total);
    hide FragSlot, FragDone, Fresh, FragWrite;
    if i < FRAG_SLOTS && Fresh(c1.frags[i], idx, |data|, fp) {
      var f := FragWrite(c1.frags[i], idx, |data|);
      var c2 := c1.(frags := c1.frags[i := f]);
      DoneExcess(Copy(p1, f.buf, Offset(idx, fp), data), c2, fp, i);
    }
  }

  /** A DATA frame moves the counter and the queue alike. */
  lemma DataExcess(p: Pool, ch: Chan, fp: nat, num: u16, idx: nat, total: nat, data: Message)
    requires Shaped(ch)
    ensures Excess(Data(p, ch, fp, num, idx, total, data).1) == Excess(ch)
  {
    hide Fragment, Arrive, Enqueue;
    EnqueueExcess(p, ch, data);
    ArriveExcess(p, ch, num, data);
    FragmentExcess(p, ch, fp, num, idx, total, data);
  }

  /** How many bytes of the oldest message a read into `room` bytes cuts off. */
  function Cut(ch: Chan, room: nat): nat
    requires Shaped(ch)
  {
    if ch.sender || ch.rqHead == ch.rqTail || ch.rq[ch.rqHead].len <= room then 0 else ch.rq[ch.rqHead].len - room
  }

  /** A read lowers the counter by the bytes it copies: what it cuts off stays counted. */
  lemma ReadExcess(p: Pool, ch: Chan, room: nat)
    requires Shaped(ch)
    ensures Excess(Read(p, ch, room).1) == Wrap32(Excess(ch) + Cut(ch, room))
  {
    if !ch.sender && ch.rqHead != ch.rqTail {
      var e := ch.rq[ch.rqHead];
      var n := if e.len < room then e.len else room;
      Outside(ch.rq, NextSlot(ch.rqHead), ch.rqTail, ch.rqHead, NO_ENTRY);
      Sunk(ch.recvBuffered, n, Queued(ch), e.len);
    } else {
      Still(Excess(ch));
    }
    hide Between, Wrap32;
  }

  /** A channel whose counter was right and whose oldest message is longer than the room for
      it: afterwards the counter is above the bytes queued by what was cut off. */
  lemma CutStaysCounted(p: Pool, ch: Chan, room: nat)
    requires Shaped(ch) && !ch.sender && ch.rqHead != ch.rqTail && room < ch.rq[ch.rqHead].len <= MAX_MSG
    requires Excess(ch) == 0
    ensures Excess(Read(p, ch, room).1) == ch.rq[ch.rqHead].len - room > 0
  {
    ReadExcess(p, ch, room);
    hide Read, Excess;
  }

  lemma Sunk(a: int, n: int, b: int, len: int)
    ensures Wrap32(Wrap32(a - n) - (b - len)) == Wrap32(Wrap32(a - b) + (len - n))
  {}

  lemma Still(x: u32)
    ensures Wrap32(x) == x
  {}

  // ----- every call -----

  /** The receive side of every channel is as it was; a new channel has nothing queued. */
  predicate SameQueues(c: Conn, c': Conn) {
    && ConnShaped(c) && ConnShaped(c') && (forall id :: id in c.chans ==> id in c'.chans)
    && forall id :: id in c'.chans ==>
         if id in c.chans then SameQueue(c.chans[id], c'.chans[id]) else Excess(c'.chans[id]) == 0
  }

  predicate SameQueue(ch: Chan, ch': Chan) {
    ch'.rq == ch.rq && ch'.rqHead == ch.rqHead && ch'.rqTail == ch.rqTail && ch'.recvBuffered == ch.recvBuffered
  }

  lemma SameSelf(c: Conn)
    requires ConnShaped(c)
    ensures SameQueues(c, c)
  {}

  lemma SameChain(a: Conn, b: Conn, c: Conn)
    requires SameQueues(a, b) && SameQueues(b, c)
    ensures SameQueues(a, c)
  {
    hide Wrap32, Between;
    forall id | id in c.chans
      ensures if id in a.chans then SameQueue(a.chans[id], c.chans[id]) else Excess(c.chans[id]) == 0
    {
      if id in b.chans { assert SameQueue(b.chans[id], c.chans[id]); }
    }
  }

  lemma WithSame(c: Conn, id: u8, p: Pool, ch: Chan)
    requires ConnShaped(c) && Shaped(ch) && id in c.chans && SameQueue(c.chans[id], ch)
    ensures SameQueues(c, With(c, id, p, ch))
  {
    hide Excess;
  }

  lemma {:induction false} FlushSame(c: Conn, i: nat, pos: nat, mtu: nat)
    requires ConnShaped(c)
    ensures SameQueues(c, FlushFrom(c, i, pos, mtu).0)
    decreases 256 - i
  {
    hide SameQueues, Shaped, FlushAck, FlushWindow;
    SameSelf(c);
    if i >= 256 || pos + 6 > mtu {
    } else if i !in c.chans {
      FlushSame(c, i + 1, pos, mtu);
    } else {
      var (c1, pos1, fs1) := FlushAck(c.chans[i], i, pos, mtu);
      var (c2, pos2, fs2) := FlushWindow(c1, i, pos1, mtu);
      var k := With(c, i, c.pool, c2);
      WithSame(c, i, c.pool, c2);
      FlushSame(k, i + 1, pos2, mtu);
      SameChain(c, k, FlushFrom(k, i + 1, pos2, mtu).0);
    }
  }

  lemma {:induction false} SendSame(c: Conn, i: nat, pos: nat, mtu: nat, now: u32)
    requires ConnShaped(c)
    ensures SameQueues(c, DataFrom(c, i, pos, mtu, now).0)
    decreases 256 - i
  {
    hide SameQueues, NextSendable, Transmit, FrameOf, PieceLen;
    SameSelf(c);
    if i >= 256 || pos + 9 > mtu {
    } else if i !in c.chans || !c.chans[i].sender || c.chans[i].state != 1 {
      SendSame(c, i + 1, pos, mtu, now);
    } else {
      var ch := c.chans[i];
      var j := NextSendable(ch, ch.outHead);
      if j == SLOTS {
        SendSame(c, i + 1, pos, mtu, now);
      } else {
        var n := PieceLen(ch.out[j], Payload(c));
        if pos + 8 + n <= mtu {
          var (p, ch1) := Transmit(c.pool, ch, j, now);
          hide Shaped;
          var k := With(c, i, p, ch1);
          WithSame(c, i, p, ch1);
          SendSame(k, i + 1, pos + 8 + n, mtu, now);
          SameChain(c, k, DataFrom(k, i + 1, pos + 8 + n, mtu, now).0);
        }
      }
    }
  }

  lemma {:induction false} ServiceSame(c: Conn, i: nat, now: u32)
    requires ConnShaped(c)
    ensures SameQueues(c, ServiceFrom(c, i, now))
    decreases 256 - i
  {
    hide SameQueues, Shaped, Retransmit;
    SameSelf(c);
    if i >= 256 {
    } else if i !in c.chans || !c.chans[i].sender || c.chans[i].kind != RELIABLE {
      ServiceSame(c, i + 1, now);
    } else {
      var k := With(c, i, c.pool, Retransmit(c.chans[i], c.rt, now, 0));
      WithSame(c, i, c.pool, k.chans[i]);
      ServiceSame(k, i + 1, now);
      SameChain(c, k, ServiceFrom(k, i + 1, now));
    }
  }

  lemma NewSame(c: Conn, id: u8, kind: nat, sender: bool, state: nat)
    requires ConnShaped(c) && id !in c.chans
    ensures SameQueues(c, With(c, id, c.pool, NewChan(kind, sender, state, c.window)))
  {}

  /** What one call cuts off on channel `id`. */
  function CutBy(c: Conn, call: Call, id: u8): nat
    requires ConnShaped(c)
  {
    if call.ReadCall? && call.id == id && id in c.chans then Cut(c.chans[id], call.room) else 0
  }

  function ExcessAt(c: Conn, id: u8): u32
    requires ConnShaped(c)
  {
    if id in c.chans then Excess(c.chans[id]) else 0
  }

  lemma SameExcess(c: Conn, c': Conn, id: u8)
    requires SameQueues(c, c')
    ensures ExcessAt(c', id) == ExcessAt(c, id)
  {
    hide Wrap32, Between;
    if id in c'.chans && id in c.chans { assert SameQueue(c.chans[id], c'.chans[id]); }
  }

  lemma HearExcess(c: Conn, f: Frame, id: u8)
    requires ConnShaped(c)
    ensures ExcessAt(Hear(c, f), id) == ExcessAt(c, id)
  {
    hide Excess, Data, Ack, NewChan;
    SameSelf(c);
    match f
    case DataFrame(k, num, idx, total, data) =>
      if k in c.chans { DataExcess(c.pool, c.chans[k], Payload(c), num, idx, total, data); }
    case AckFrame(k, num) =>
      if k in c.chans && c.chans[k].sender {
        var (p, ch) := Ack(c.pool, c.chans[k], num);
        WithSame(c, k, p, ch);
        SameExcess(c, With(c, k, p, ch), id);
      }
    case WindowFrame(k, window) =>
      if k in c.chans && c.chans[k].sender {
        var ch := c.chans[k].(sendWindow := window, state := if c.chans[k].state == 0 then 1 else c.chans[k].state);
        WithSame(c, k, c.pool, ch);
        SameExcess(c, With(c, k, c.pool, ch), id);
      }
    case OpenFrame(k, kind, theySend) =>
      if k !in c.chans && |c.chans| < MAX_CHAN {
        NewSame(c, k, kind, !theySend, 1);
        SameExcess(c, With(c, k, c.pool, NewChan(kind, !theySend, 1, c.window)), id);
      }
    case CloseFrame(k) =>
      if k in c.chans {
        WithSame(c, k, c.pool, c.chans[k].(state := 3));
        SameExcess(c, With(c, k, c.pool, c.chans[k].(state := 3)), id);
      }
  }

  lemma OpenExcess(c: Conn, kind: u8, send: bool, id: u8)
    requires ConnShaped(c)
    ensures ExcessAt(OpenChan(c, kind, send), id) == ExcessAt(c, id)
  {
    hide Excess, NewChan, Shaped;
    var c1 := c.(nextId := if c.nextId >= 254 then c.nextId - 254 else c.nextId + 2);
    if c.nextId !in c.chans && |c.chans| < MAX_CHAN {
      NewSame(c1, c.nextId, kind, send, if send then 0 else 1);
      SameExcess(c1, OpenChan(c, kind, send), id);
    }
  }

  lemma WriteExcess(c: Conn, k: u8, data: Message, id: u8)
    requires ConnShaped(c)
    ensures ExcessAt(WriteTo(c, k, data).0, id) == ExcessAt(c, id)
  {
    hide Excess, Write, Shaped;
    if k in c.chans {
      var (p, ch, res) := Write(c.pool, c.chans[k], Payload(c), data);
      WithSame(c, k, p, ch);
      SameExcess(c, With(c, k, p, ch), id);
    }
  }

  lemma DoExcess(c: Conn, call: Call, id: u8)
    requires ConnShaped(c)
    ensures ExcessAt(Do(c, call).0, id) == Wrap32(ExcessAt(c, id) + CutBy(c, call, id))
  {
    hide Excess, Hear, OpenChan, WriteTo, FlushFrom, DataFrom, ServiceFrom, Read, Cut, Wrap32, SameQueues;
    Still(ExcessAt(c, id));
    match call
    case Open(kind, send) => OpenExcess(c, kind, send, id);
    case Close(k) =>
      if k in c.chans {
        WithSame(c, k, c.pool, c.chans[k].(state := 2));
        SameExcess(c, With(c, k, c.pool, c.chans[k].(state := 2)), id);
      }
    case WriteCall(k, data) => WriteExcess(c, k, data, id);
    case ReadCall(k, room) => if k in c.chans { ReadExcess(c.pool, c.chans[k], room); }
    case Feed(f) => HearExcess(c, f, id);
    case Send(pos, room, now) =>
      FlushSame(c, 0, pos, room);
      var (c1, pos1, fs1) := FlushFrom(c, 0, pos, room);
      SendSame(c1, 0, pos1, room, now);
      SameExcess(c, c1, id);
      SameExcess(c1, DataFrom(c1, 0, pos1, room, now).0, id);
    case Service(now) =>
      ServiceSame(c, 0, now);
      SameExcess(c, ServiceFrom(c, 0, now), id);
  }

  /** What all calls together have cut off. */
  function CutInAll(c: Conn, calls: seq<Call>, id: u8): nat
    requires ConnShaped(c)
  {
    if calls == [] then 0
    else CutInAll(c, calls[..|calls| - 1], id) + CutBy(Run(c, calls[..|calls| - 1]), calls[|calls| - 1], id)
  }

  lemma Added(a: int, b: int)
    ensures Wrap32(Wrap32(a) + b) == Wrap32(a + b)
  {}

  lemma {:induction false} RunExcess(c: Conn, calls: seq<Call>, id: u8)
    requires ConnShaped(c) && ExcessAt(c, id) == 0
    ensures ExcessAt(Run(c, calls), id) == Wrap32(CutInAll(c, calls, id))
  {
    hide ExcessAt, Do, CutBy, Wrap32;
    if calls == [] {
      Still(0);
    } else {
      var init, call := calls[..|calls| - 1], calls[|calls| - 1];
      RunExcess(c, init, id);
      DoExcess(Run(c, init), call, id);
      Added(CutInAll(c, init, id), CutBy(Run(c, init), call, id));
    }
  }

  /** After any calls and frames recv_buffered is the bytes queued plus the bytes cut off,
      modulo 2^32: the bytes queued exactly when nothing, or a multiple of 2^32, was cut. */
  lemma BufferedExactly(mtu: nat, window: u32, rt: nat, server: bool, calls: seq<Call>, id: u8)
    requires mtu > OVERHEAD
    ensures ConnShaped(NewConn(mtu, window, rt, server))
    ensures var c0 := NewConn(mtu, window, rt, server);
            var c, cut := Run(c0, calls), CutInAll(c0, calls, id);
      id in c.chans ==>
        && c.chans[id].recvBuffered == Wrap32(Queued(c.chans[id]) + cut)
        && (c.chans[id].recvBuffered == Wrap32(Queued(c.chans[id])) <==> cut % 0x1_0000_0000 == 0)
  {
    hide Run, CutInAll, Wrap32, Between, Shaped, PoolInit;
    var c0 := NewConn(mtu, window, rt, server);
    RunExcess(c0, calls, id);
    var c := Run(c0, calls);
    if id in c.chans { Balance(c.chans[id].recvBuffered, Queued(c.chans[id]), CutInAll(c0, calls, id)); }
  }

  lemma Balance(a: u32, b: int, cut: int)
    requires Wrap32(a - b) == Wrap32(cut)
    ensures a == Wrap32(b + cut) && (a == Wrap32(b) <==> cut % 0x1_0000_0000 == 0)
  {}
}
