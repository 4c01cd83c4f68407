/** Flow control and the life of a channel in netchan-v2: what a channel may send, that
    acknowledgements and window updates do go out, and how a channel opens at both ends. */
module V2Window {
  import opened Bytes
  import opened V2Channel
  import opened V2Pool
  import opened V2Fragments
  import opened V2Conn
  import opened V2Emission
  import opened V2Resend

  // ----- acknowledgements and window updates go out -----

  /** What a receiver has room for. */
  function RoomLeft(ch: Chan): nat {
    if ch.recvBuffered >= ch.recvWindow then 0 else ch.recvWindow - ch.recvBuffered
  }

  /** Each control frame that was due is among the frames or still due. */
  predicate Told(ch: Chan, ch1: Chan, id: u8, fs: seq<Frame>) {
    && ch1 == ch.(out := ch1.out, outHead := ch1.outHead, needAck := ch1.needAck, needWindow := ch1.needWindow)
    && (ch.needAck ==> ch1.needAck || AckFrame(id, ch.ackSeq) in fs)
    && (ch.needWindow ==> ch1.needWindow || WindowFrame(id, RoomLeft(ch)) in fs)
  }

  predicate AllTold(c: Conn, c1: Conn, fs: seq<Frame>) {
    c1.chans.Keys == c.chans.Keys && c1.mtu == c.mtu
    && forall id :: id in c.chans ==> Told(c.chans[id], c1.chans[id], id, fs)
  }

  lemma ToldChain(a: Conn, b: Conn, c: Conn, fs: seq<Frame>, gs: seq<Frame>)
    requires AllTold(a, b, fs) && AllTold(b, c, gs)
    ensures AllTold(a, c, fs + gs)
  {
    forall id | id in a.chans ensures Told(a.chans[id], c.chans[id], id, fs + gs) {
      assert Told(a.chans[id], b.chans[id], id, fs) && Told(b.chans[id], c.chans[id], id, gs);
    }
  }

  lemma ToldOne(c: Conn, i: u8, pos: nat, mtu: nat)
    requires ConnShaped(c) && i in c.chans && pos + 6 <= mtu
    ensures var (c1, pos1, fs1) := FlushAck(c.chans[i], i, pos, mtu);
            var (c2, pos2, fs2) := FlushWindow(c1, i, pos1, mtu);
      AllTold(c, With(c, i, c.pool, c2), fs1 + fs2)
  {
    hide Shaped;
    var (c1, pos1, fs1) := FlushAck(c.chans[i], i, pos, mtu);
    var (c2, pos2, fs2) := FlushWindow(c1, i, pos1, mtu);
    assert Told(c.chans[i], c2, i, fs1 + fs2);
  }

  lemma ToldSelf(c: Conn)
    ensures AllTold(c, c, [])
  {}

  lemma {:induction false} FlushTells(c: Conn, i: nat, pos: nat, mtu: nat)
    requires ConnShaped(c)
    ensures var (c1, _, fs) := FlushFrom(c, i, pos, mtu); AllTold(c, c1, fs)
    decreases 256 - i
  {
    hide Shaped, FlushAck, FlushWindow, AllTold;
    ToldSelf(c);
    if i >= 256 || pos + 6 > mtu {
    } else if i !in c.chans {
      FlushTells(c, i + 1, pos, mtu);
    } else {
      var (c1, pos1, fs1) := FlushAck(c.chans[i], i, pos, mtu);
      var (c2, pos2, fs2) := FlushWindow(c1, i, pos1, mtu);
      ToldOne(c, i, pos, mtu);
      var k := With(c, i, c.pool, c2);
      FlushTells(k, i + 1, pos2, mtu);
      var (c3, _, fs) := FlushFrom(k, i + 1, pos2, mtu);
      ToldChain(c, k, c3, fs1 + fs2, fs);
    }
  }

  /** Sending data leaves the control frames due. */
  lemma {:induction false} DataTells(c: Conn, i: nat, pos: nat, mtu: nat, now: u32)
    requires ConnShaped(c)
    ensures AllTold(c, DataFrom(c, i, pos, mtu, now).0, [])
    decreases 256 - i
  {
    hide FrameOf, PieceLen, NextSendable, Transmit, AllTold;
    ToldSelf(c);
    if i >= 256 || pos + 9 > mtu {
    } else if i !in c.chans || !c.chans[i].sender || c.chans[i].state != 1 {
      DataTells(c, i + 1, pos, mtu, now);
    } else {
      var ch := c.chans[i];
      var j := NextSendable(ch, ch.outHead);
      if j == SLOTS {
        DataTells(c, i + 1, pos, mtu, now);
      } else {
        var n := PieceLen(ch.out[j], Payload(c));
        if pos + 8 + n <= mtu {
          var (p, ch1) := Transmit(c.pool, ch, j, now);
          var k := With(c, i, p, ch1);
          hide Shaped;
          OneChanged(c, k, i);
          DataTells(k, i + 1, pos + 8 + n, mtu, now);
          var none: seq<Frame> := [];
          ToldChain(c, k, DataFrom(k, i + 1, pos + 8 + n, mtu, now).0, none, none);
          assert none + none == none;
        }
      }
    }
  }

  lemma OneChanged(c: Conn, c1: Conn, i: u8)
    requires i in c.chans && i in c1.chans && c1 == c.(pool := c1.pool, chans := c.chans[i := c1.chans[i]])
    requires var ch, ch1 := c.chans[i], c1.chans[i]; ch1 == ch.(out := ch1.out, outHead := ch1.outHead)
    ensures AllTold(c, c1, [])
  {}

  lemma {:induction false} ManyTells(c: Conn, n: nat, now: u32)
    requires ConnShaped(c)
    ensures var (c1, fs) := SendMany(c, n, now); AllTold(c, c1, fs)
    decreases n
  {
    hide SendNext, AllTold, Shaped;
    if n == 0 {
      ToldSelf(c);
    } else {
      var (c1, gs) := SendNext(c, HEADER, c.mtu, now);
      SendTells(c, now);
      ManyTells(c1, n - 1, now);
      var (c2, fs) := SendMany(c1, n - 1, now);
      ToldChain(c, c1, c2, gs, fs);
    }
  }

  lemma SendTells(c: Conn, now: u32)
    requires ConnShaped(c)
    ensures var (c1, fs) := SendNext(c, HEADER, c.mtu, now); AllTold(c, c1, fs)
  {
    hide FlushFrom, DataFrom, AllTold, Shaped;
    FlushTells(c, 0, HEADER, c.mtu);
    var (c1, pos1, fs1) := FlushFrom(c, 0, HEADER, c.mtu);
    DataTells(c1, 0, pos1, c.mtu, now);
    var (c2, _, fs2) := DataFrom(c1, 0, pos1, c.mtu, now);
    ToldChain(c, c1, c2, fs1, []);
    ToldMore(c, c2, fs1 + [], fs2);
    assert fs1 + [] + fs2 == fs1 + fs2;
  }

  lemma ToldMore(c: Conn, c1: Conn, fs: seq<Frame>, gs: seq<Frame>)
    requires AllTold(c, c1, fs)
    ensures AllTold(c, c1, fs + gs)
  {
    forall id | id in c.chans ensures Told(c.chans[id], c1.chans[id], id, fs + gs) {
      assert Told(c.chans[id], c1.chans[id], id, fs);
    }
  }

  /** Asking for packets until nothing is owed puts every acknowledgement and every window
      update that is due on the wire; a window update tells the room there is. */
  lemma ControlGoesOut(c: Conn, n: nat, now: u32)
    requires Sound(c) && ConnShaped(c) && n >= Debt(c)
    ensures var fs := SendMany(c, n, now).1;
      && (forall id :: id in c.chans && c.chans[id].needAck ==> AckFrame(id, c.chans[id].ackSeq) in fs)
      && (forall id :: id in c.chans && c.chans[id].needWindow ==> WindowFrame(id, RoomLeft(c.chans[id])) in fs)
  {
    hide Sound, SendMany, Debt, RoomLeft, Shaped;
    ManyPays(c, n, now);
    ManyTells(c, n, now);
    var (c1, fs) := SendMany(c, n, now);
    forall id | id in c.chans ensures Told(c.chans[id], c1.chans[id], id, fs) && !Pending(c1.chans[id]) {
      ChanPaid(c1, id);
    }
  }

  /** A message read makes room, and the sender will be told. */
  lemma ReadIsTold(c: Conn, id: u8, room: nat, n: nat, now: u32)
    requires Sound(c) && ConnShaped(c) && id in c.chans && !c.chans[id].sender
    requires c.chans[id].rqHead != c.chans[id].rqTail && n >= Debt(ReadFrom(c, id, room).0)
    ensures var c1 := ReadFrom(c, id, room).0;
      && id in c1.chans && c1.chans[id].rqHead == NextSlot(c.chans[id].rqHead)
      && WindowFrame(id, RoomLeft(c1.chans[id])) in SendMany(c1, n, now).1
  {
    hide Sound, SendMany, Debt, RoomLeft;
    ReadSound(c, id, room);
    var c1 := ReadFrom(c, id, room).0;
    assert c1.chans[id].needWindow;
    ControlGoesOut(c1, n, now);
  }

  /** Whatever DATA a reliable channel hears, it will acknowledge the last number it has
      counted, or 0 while it has counted none. */
  lemma DataIsAcked(c: Conn, f: Frame, n: nat, now: u32)
    requires ConnShaped(c) && Sound(Hear(c, f)) && f.DataFrame? && f.id in c.chans
    requires !c.chans[f.id].sender && c.chans[f.id].kind == RELIABLE && n >= Debt(Hear(c, f))
    ensures var c1 := Hear(c, f);
      && f.id in c1.chans
      && var k := c1.chans[f.id].recvSeq;
         AckFrame(f.id, if k == 0 then 0 else k - 1) in SendMany(c1, n, now).1
  {
    hide Sound, SendMany, Debt, Fragment, Arrive;
    var c1 := Hear(c, f);
    assert c1.chans[f.id].needAck;
    ControlGoesOut(c1, n, now);
  }

  // ----- what may be written -----

  /** A ring with a slot to spare and a buffer to be had. */
  predicate HasSpace(c: Conn, ch: Chan)
    requires Shaped(ch)
  {
    Distance(ch.outHead, ch.outTail) < SLOTS - 1 && c.pool.free != []
  }

  /** A write is accepted exactly when the channel is not closed, there is space, and an open
      reliable channel stays inside the window; what is unacknowledged then counts the
      message. */
  lemma WriteExactly(c: Conn, id: u8, data: Message)
    requires Sound(c) && ConnShaped(c) && Admissible(Payload(c)) && id in c.chans && c.chans[id].sender
    requires 0 < |data| <= MAX_MSG
    ensures var (c1, res) := WriteTo(c, id, data);
            var ch := c.chans[id];
            var over := ch.kind == RELIABLE && ch.state == 1 && Total(ch.out) + |data| > ch.sendWindow;
      && id in c1.chans
      && (res == Sent(|data|) <==> ch.state != 3 && !over && HasSpace(c, ch))
      && (res == Closed <==> ch.state == 3) && (res == Flow <==> ch.state != 3 && over)
      && (res == Sent(|data|) ==> Total(c1.chans[id].out) == Total(ch.out) + |data|)
      && (res != Sent(|data|) ==> c1 == c)
  {
    var ch := c.chans[id];
    assert Tidy(ch) && Accounted(ch);
    PiecesFit(|data|, Payload(c));
    var (c1, res) := WriteTo(c, id, data);
    hide Sound, Total, Copy, Pieces, Tidy, Accounted, Admissible;
    SpareSlot(ch.outHead, ch.outTail);
    if res == Sent(|data|) {
      OneMoreOut(ch, c1.chans[id].out);
    } else {
      assert With(c, id, c.pool, ch) == c;
    }
  }

  lemma SpareSlot(head: nat, tail: nat)
    requires head < SLOTS && tail < SLOTS
    ensures NextSlot(tail) == head <==> Distance(head, tail) == SLOTS - 1
  {}

  lemma OneMoreOut(ch: Chan, out: seq<Out>)
    requires Tidy(ch) && |out| == SLOTS && NextSlot(ch.outTail) != ch.outHead
    requires out == ch.out[ch.outTail := out[ch.outTail]] && out[ch.outTail].active
    ensures Total(out) == Total(ch.out) + out[ch.outTail].len
  {
    RingGrows(ch.outHead, ch.outTail, ch.outTail);
    assert Weight(ch.out[ch.outTail]) == 0;
    TotalUpdate(ch.out, ch.outTail, out[ch.outTail]);
  }

  /** After an acknowledgement the ring begins with a message that is still under way, or is
      empty; so once everything is acknowledged every slot but one can be written again. */
  lemma AckMakesRoom(p: Pool, ch: Chan, a: u16)
    requires Shaped(ch)
    ensures var ch1 := Ack(p, ch, a).1;
      && (ch1.outHead == ch1.outTail || ch1.out[ch1.outHead].active)
      && ((forall i :: 0 <= i < SLOTS ==> !ch1.out[i].active) ==> Distance(ch1.outHead, ch1.outTail) == 0)
  {
    hide AckFrom;
    var c1 := AckFrom(p, ch, a, 0).1;
    AdvanceStops(c1.out, c1.outHead, c1.outTail);
  }

  lemma {:induction false} AdvanceStops(out: seq<Out>, head: nat, tail: nat)
    requires |out| == SLOTS && head < SLOTS && tail < SLOTS
    ensures var r := Advance(out, head, tail); r == tail || out[r].active
    decreases Distance(head, tail)
  {
    if head != tail && !out[head].active { AdvanceStops(out, NextSlot(head), tail); }
  }

  // ----- opening and closing -----

  /** The channel is there, and the others are as they were. */
  predicate Added(c: Conn, c1: Conn, id: u8, kind: u8, sender: bool, state: nat) {
    && c1.chans.Keys == c.chans.Keys + {id} && (forall k :: k in c.chans && k != id ==> c1.chans[k] == c.chans[k])
    && c1.chans[id].kind == kind && c1.chans[id].sender == sender && c1.chans[id].state == state
    && c1.chans[id].recvWindow == c.window
  }

  lemma OpenAdds(a: Conn, kind: u8, send: bool)
    requires ConnShaped(a) && a.nextId !in a.chans && |a.chans| < MAX_CHAN
    ensures Added(a, OpenChan(a, kind, send), a.nextId, kind, send, if send then 0 else 1)
  {
    hide Shaped;
  }

  lemma HeardAdds(b: Conn, id: u8, kind: u8, theySend: bool)
    requires ConnShaped(b) && id !in b.chans && |b.chans| < MAX_CHAN
    ensures Added(b, Hear(b, OpenFrame(id, kind, theySend)), id, kind, !theySend, 1)
  {
    hide Shaped;
  }

  /** Hearing of a window opens a sender and is kept; a receiver takes no notice. */
  lemma WindowOpens(c: Conn, c1: Conn, id: u8, kind: u8, sender: bool, state: nat, window: u32)
    requires ConnShaped(c1) && Added(c, c1, id, kind, sender, state) && state <= 1
    ensures var c2 := Hear(c1, WindowFrame(id, window));
      && Added(c, c2, id, kind, sender, if sender then 1 else state)
      && (if sender then c2.chans[id].sendWindow == window else c2 == c1)
  {
    hide Shaped;
  }

  /** A channel opened at one end and heard of at the other: both have it under one number and
      kind, one for sending and one for receiving; the receiver is open, and the sender is
      once it hears of a window, which is then the window it keeps to. */
  lemma OpensBothEnds(a: Conn, b: Conn, kind: u8, send: bool, window: u32)
    requires ConnShaped(a) && ConnShaped(b) && a.nextId !in a.chans && a.nextId !in b.chans
    requires |a.chans| < MAX_CHAN && |b.chans| < MAX_CHAN
    ensures var id := a.nextId;
            var a1, b1 := OpenChan(a, kind, send), Hear(b, OpenFrame(a.nextId, kind, send));
            var a2, b2 := Hear(a1, WindowFrame(id, window)), Hear(b1, WindowFrame(id, window));
      && Added(a, a1, id, kind, send, if send then 0 else 1) && Added(b, b1, id, kind, !send, 1)
      && Added(a, a2, id, kind, send, 1) && Added(b, b2, id, kind, !send, 1)
      && (if send then a2.chans[id].sendWindow == window && b2 == b1
          else b2.chans[id].sendWindow == window && a2 == a1)
  {
    hide Shaped, OpenChan, Hear, Added;
    var id := a.nextId;
    var a1, b1 := OpenChan(a, kind, send), Hear(b, OpenFrame(id, kind, send));
    OpenAdds(a, kind, send);
    HeardAdds(b, id, kind, send);
    WindowOpens(a, a1, id, kind, send, if send then 0 else 1, window);
    WindowOpens(b, b1, id, kind, !send, 1, window);
  }

  /** Close ends the channel at both ends: nothing is accepted and nothing more is sent. */
  lemma CloseEnds(c: Conn, id: u8, data: Message, n: nat, now: u32)
    requires ConnShaped(c) && id in c.chans
    ensures var mine, theirs := CloseChan(c, id), Hear(c, CloseFrame(id));
      && NoneOf(SendMany(mine, n, now).1, id) && NoneOf(SendMany(theirs, n, now).1, id)
      && (c.chans[id].sender ==> WriteTo(theirs, id, data).1 == Closed)
  {
    hide SendMany, NoneOf;
    var mine, theirs := CloseChan(c, id), Hear(c, CloseFrame(id));
    ShutSendsNothing(mine, id, n, now);
    ShutSendsNothing(theirs, id, n, now);
  }
}
