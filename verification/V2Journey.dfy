/** One message of netchan-v2 from end to end: the sender is asked for packets until it has
    no more, and the receiver is given frames from the wire. */
module V2Journey {
  import opened Bytes
  import opened Finite
  import opened V2Channel
  import opened V2Pool
  import opened V2Fragments
  import opened V2Receiver
  import opened V2Sender
  import opened V2Conn
  import opened V2System
  import V2Acks
  import V2Emission
  import V2Reassembly
  import V2Resend

  // ----- what the sender puts on the wire -----

  lemma SendMild(c: Conn, pos: nat, room: nat, now: u32)
    requires ConnShaped(c)
    ensures V2Acks.ConnMild(c, SendNext(c, pos, room, now).0)
  {
    hide V2Acks.ConnMild, V2Acks.Mild, Shaped, FlushFrom, DataFrom, V2Acks.AcksOf, V2Acks.AllData;
    V2Acks.FlushMild(c, 0, pos, room);
    var (c1, pos1, fs1) := FlushFrom(c, 0, pos, room);
    V2Acks.DataFromMild(c1, 0, pos1, room, now);
    V2Acks.MildChain(c, c1, DataFrom(c1, 0, pos1, room, now).0);
  }

  /** Sending writes nothing. */
  lemma SendWritesNothing(c: Conn, pos: nat, room: nat, now: u32, id: u8)
    requires ConnShaped(c)
    ensures WrittenAt(SendNext(c, pos, room, now).0, id) == WrittenAt(c, id)
  {
    SendMild(c, pos, room, now);
    var c' := SendNext(c, pos, room, now).0;
    if id in c.chans { assert V2Acks.Mild(c.chans[id], c'.chans[id]); }
    hide SendNext, Shaped;
  }

  /** Every frame of many calls is a true fragment of a message of its channel. */
  lemma {:induction false} ManyFine(c: Conn, peer: Conn, n: nat, now: u32)
    requires ConnShaped(c) && Fine(c, peer)
    ensures AllFine(V2Emission.SendMany(c, n, now).1, Payload(c), c)
    decreases n
  {
    hide Fine, SendNext, Shaped, AllFine, Grows, WrittenAt;
    if n == 0 {
      NoneFine(Payload(c), c);
    } else {
      var (c1, gs) := SendNext(c, V2Emission.HEADER, c.mtu, now);
      SendNextFine(c, peer, V2Emission.HEADER, c.mtu, now);
      assert c1.mtu == c.mtu by { SameMtu(c, c1); }
      ManyFine(c1, peer, n - 1, now);
      var fs := V2Emission.SendMany(c1, n - 1, now).1;
      forall id: u8 ensures WrittenAt(c1, id) == WrittenAt(c, id) {
        SendWritesNothing(c, V2Emission.HEADER, c.mtu, now, id);
      }
      BothFine(gs, fs, Payload(c), c1, c);
    }
  }

  lemma BothFine(gs: seq<Frame>, fs: seq<Frame>, fp: nat, c: Conn, c': Conn)
    requires AllFine(gs, fp, c) && AllFine(fs, fp, c) && forall id: u8 :: WrittenAt(c, id) == WrittenAt(c', id)
    ensures AllFine(gs + fs, fp, c')
  {
    hide WrittenAt, AllFine;
    FineThere(gs, fp, c, c');
    FineThere(fs, fp, c, c');
    FineConcat(gs, fs, fp, c');
  }

  lemma NoneFine(fp: nat, c: Conn)
    ensures AllFine([], fp, c)
  {}

  lemma SameMtu(c: Conn, c': Conn)
    requires Grows(c, c')
    ensures c'.mtu == c.mtu
  {}

  lemma FineThere(fs: seq<Frame>, fp: nat, c: Conn, c': Conn)
    requires AllFine(fs, fp, c) && forall id: u8 :: WrittenAt(c, id) == WrittenAt(c', id)
    ensures AllFine(fs, fp, c')
  {
    hide WrittenAt, Genuine;
    forall k | 0 <= k < |fs| ensures FrameFine(fs[k], fp, c') {
      assert FrameFine(fs[k], fp, c);
      if fs[k].DataFrame? { assert WrittenAt(c, fs[k].id) == WrittenAt(c', fs[k].id); }
    }
  }

  // ----- what the receiver makes of it -----

  /** A DATA frame, or a read by the application. */
  datatype Arrival = Heard(f: Frame) | Taken(room: nat)

  function Receive(p: Pool, ch: Chan, fp: nat, a: Arrival): (r: (Pool, Chan))
    requires Shaped(ch)
    ensures Shaped(r.1)
  {
    match a
    case Heard(f) => if f.DataFrame? then Data(p, ch, fp, f.num, f.idx, f.total, f.data) else (p, ch)
    case Taken(room) => var (p1, c1, _) := Read(p, ch, room); (p1, c1)
  }

  function ReceiveAll(p: Pool, ch: Chan, fp: nat, xs: seq<Arrival>): (r: (Pool, Chan))
    requires Shaped(ch)
    ensures Shaped(r.1)
  {
    if xs == [] then (p, ch)
    else
      var (p1, c1) := ReceiveAll(p, ch, fp, xs[..|xs| - 1]);
      Receive(p1, c1, fp, xs[|xs| - 1])
  }

  /** A frame of message `num` is one from the wire; others are whatever they are. */
  predicate OffWire(f: Frame, wire: set<Frame>, id: u8, num: u16) {
    f.DataFrame? && f.id == id && (f.num == num ==> f in wire)
  }

  predicate AllOffWire(xs: seq<Arrival>, wire: set<Frame>, id: u8, num: u16) {
    forall k :: 0 <= k < |xs| && xs[k].Heard? ==> OffWire(xs[k].f, wire, id, num)
  }

  function EventOf(a: Arrival, num: u16): V2Reassembly.Event {
    match a
    case Heard(f) =>
      if !f.DataFrame? then V2Reassembly.Piece(0)
      else if f.num == num then V2Reassembly.Piece(f.idx)
      else V2Reassembly.Other(f.num, f.idx, f.total, f.data)
    case Taken(room) => V2Reassembly.Take(room)
  }

  function EventsOf(xs: seq<Arrival>, num: u16): (es: seq<V2Reassembly.Event>)
    ensures |es| == |xs| && forall k :: 0 <= k < |xs| ==> es[k] == EventOf(xs[k], num)
  {
    seq(|xs|, k requires 0 <= k < |xs| => EventOf(xs[k], num))
  }

  /** All frames of message `num` on the wire are its true fragments. */
  predicate AllPieces(wire: set<Frame>, id: u8, num: u16, m: Message, fp: nat) {
    fp > 0 && forall f :: f in wire && f.DataFrame? && f.id == id && f.num == num ==> IsPiece(f, m, fp)
  }

  predicate IsPiece(f: Frame, m: Message, fp: nat)
    requires f.DataFrame? && fp > 0
  {
    f.idx < f.total == Pieces(|m|, fp) && Offset(f.idx, fp) <= |m| && f.data == Cut(m, f.idx, fp)
  }

  lemma ReceiveIs(p: Pool, ch: Chan, wire: set<Frame>, id: u8, num: u16, m: Message, fp: nat, a: Arrival)
    requires Shaped(ch) && AllPieces(wire, id, num, m, fp) && 0 < |m| <= MAX_MSG
    requires a.Heard? ==> OffWire(a.f, wire, id, num)
    ensures V2Reassembly.Meant(EventOf(a, num), num, m, fp)
    ensures Receive(p, ch, fp, a) == V2Reassembly.Happen(p, ch, fp, num, m, EventOf(a, num))
  {
    if a.Heard? && a.f.num == num { assert IsPiece(a.f, m, fp); }
    hide Data, Read, Cut, Pieces, Offset;
  }

  lemma {:induction false} ReceiveAllIs(p: Pool, ch: Chan, wire: set<Frame>, id: u8, num: u16, m: Message, fp: nat,
                                        xs: seq<Arrival>)
    requires Shaped(ch) && AllPieces(wire, id, num, m, fp) && 0 < |m| <= MAX_MSG && AllOffWire(xs, wire, id, num)
    ensures V2Reassembly.AllMeant(EventsOf(xs, num), num, m, fp)
    ensures ReceiveAll(p, ch, fp, xs) == V2Reassembly.Run(p, ch, fp, num, m, EventsOf(xs, num))
  {
    assert fp > 0;
    hide Receive, V2Reassembly.Happen, AllPieces, V2Reassembly.Meant, OffWire;
    forall k | 0 <= k < |xs| ensures V2Reassembly.Meant(EventOf(xs[k], num), num, m, fp) {
      ReceiveIs(p, ch, wire, id, num, m, fp, xs[k]);
    }
    if xs != [] {
      var init, x := xs[..|xs| - 1], xs[|xs| - 1];
      ReceiveAllIs(p, ch, wire, id, num, m, fp, init);
      assert EventsOf(xs, num)[..|xs| - 1] == EventsOf(init, num);
      var (p1, c1) := ReceiveAll(p, ch, fp, init);
      ReceiveIs(p1, c1, wire, id, num, m, fp, x);
    }
  }

  // ----- both -----

  /** Message `m`, number `num`, of an open channel has not begun to go out. */
  ghost predicate Ready(c: Conn, peer: Conn, id: u8, j: nat, num: u16, m: Message)
    requires ConnShaped(c)
  {
    && Fine(c, peer) && id in c.chans && c.chans[id].sender && c.chans[id].state == 1 && j < SLOTS
    && c.chans[id].out[j].active && c.chans[id].out[j].fragSent == 0 && Few(c.chans[id].written)
    && c.chans[id].out[j].num == num < |c.chans[id].written| && c.chans[id].written[num] == m
  }

  lemma ReadyIs(c: Conn, peer: Conn, id: u8, j: nat, num: u16, m: Message)
    requires ConnShaped(c) && Ready(c, peer, id, j, num, m)
    ensures Fine(c, peer) && Sound(c) && Admissible(Payload(c)) && Few(WrittenAt(c, id))
    ensures num < |WrittenAt(c, id)| && m == WrittenAt(c, id)[num]
    ensures 0 < |m| <= MAX_MSG && V2Emission.Midway(c, id, j, m, num, 0)
  {
    V2Acks.FineChan(c, peer, id);
    var o := c.chans[id].out[j];
    assert SlotSends(c.pool, o, Payload(c), c.chans[id].written);
    hide Sound, Holds, Owns;
    PiecesFit(o.len, Payload(c));
  }

  lemma WireIsPieces(c: Conn, wire: set<Frame>, fs: seq<Frame>, id: u8, num: u16)
    requires c.mtu > OVERHEAD && WireFine(wire, Payload(c), c) && AllFine(fs, Payload(c), c)
    requires Few(WrittenAt(c, id)) && num < |WrittenAt(c, id)|
    ensures AllPieces(wire + Elems(fs), id, num, WrittenAt(c, id)[num], Payload(c))
  {
    hide WrittenAt, Pieces, Offset, Cut;
    forall f | f in wire + Elems(fs) && f.DataFrame? && f.id == id && f.num == num
      ensures IsPiece(f, WrittenAt(c, id)[num], Payload(c))
    {
      if f in wire {
        assert FrameFine(f, Payload(c), c);
      } else {
        var k :| 0 <= k < |fs| && fs[k] == f;
        assert FrameFine(fs[k], Payload(c), c);
      }
    }
  }

  /** Each fragment of the message is on the wire under its index. */
  predicate AllThere(fs: seq<Frame>, id: u8, num: u16, m: Message, fp: nat)
    requires fp > 0
  {
    forall i :: 0 <= i < Pieces(|m|, fp) ==> There(fs, id, num, i)
  }

  predicate There(fs: seq<Frame>, id: u8, num: u16, i: nat) { exists f :: f in fs && Is(f, id, num, i) }

  predicate Is(f: Frame, id: u8, num: u16, i: nat) { f.DataFrame? && f.id == id && f.num == num && f.idx == i }

  lemma EmittedIsThere(fs: seq<Frame>, id: u8, num: u16, m: Message, fp: nat)
    requires Admissible(fp) && 0 < |m| <= MAX_MSG && V2Emission.Emitted(fs, id, num, m, fp, 0)
    ensures AllThere(fs, id, num, m, fp)
  {
    hide Pieces, Offset;
    forall i | 0 <= i < Pieces(|m|, fp) ensures There(fs, id, num, i) {
      assert Offset(i, fp) <= |m| && V2Emission.PieceFrame(id, num, m, fp, i) in fs;
      var f := V2Emission.PieceFrame(id, num, m, fp, i);
      V2Emission.PieceFrameIs(id, num, m, fp, i);
      assert f in fs && Is(f, id, num, i);
    }
  }

  /** The last missing fragment hands the message on. */
  predicate HandedOn(p1: Pool, c1: Chan, p2: Pool, c2: Chan, num: u16, m: Message)
    requires Shaped(c1) && Shaped(c2)
  {
    V2Reassembly.Room(p1, c1) ==>
      && (c1.kind == UNRELIABLE ==> c2.arrived == c1.arrived + [m])
      && (c1.kind != UNRELIABLE && num == c1.recvSeq ==> V2Reassembly.Begins(c1.arrived + [m], c2.arrived))
      && (c1.kind != UNRELIABLE && 0 < Diff16(num, c1.recvSeq) < SLOTS && !c1.reorder[num % SLOTS].valid ==>
            var r := c2.reorder[num % SLOTS]; r.valid && r.num == num && Content(p2, r.buf, r.len) == m)
  }

  /** From one end to the other. In any state the system can be in, asking a sender for packets
      until nothing is owed puts every fragment of the message on the wire; and a receiver
      that hears frames of the message from that wire, in any order, repeated and mixed with
      any other frames and reads, until none is missing, hands on exactly the message. */
  lemma FragmentsSurvive(c: Conn, peer: Conn, wire: set<Frame>, id: u8, j: nat, num: u16, m: Message, n: nat, now: u32,
                         p: Pool, ch: Chan, first: Frame, xs: seq<Arrival>, last: Frame)
    requires ConnShaped(c) && Ready(c, peer, id, j, num, m) && WireFine(wire, Payload(c), c)
    requires n >= V2Emission.Debt(c) && 1 < Pieces(|m|, Payload(c))
    requires Tidy(ch) && (exists w :: Owns(p, ch, w)) && Vacant(ch, num) && p.free != []
    requires Covers(first, xs, last, wire + Elems(V2Emission.SendMany(c, n, now).1), id, num, Pieces(|m|, Payload(c)))
    ensures AllThere(V2Emission.SendMany(c, n, now).1, id, num, m, Payload(c))
    ensures var (p1, c1) := ReceiveAll(p, ch, Payload(c), [Heard(first)] + xs);
            var (p2, c2) := Receive(p1, c1, Payload(c), Heard(last));
      HandedOn(p1, c1, p2, c2, num, m)
  {
    var fs := V2Emission.SendMany(c, n, now).1;
    var fp := Payload(c);
    hide Ready, Fine, Sound, Owns, Tidy, Vacant, Covers, V2Emission.SendMany, V2Emission.Debt, V2Emission.Midway;
    hide HandedOn, Receive, ReceiveAll, Pieces, AllThere;
    ReadyIs(c, peer, id, j, num, m);
    ManyFine(c, peer, n, now);
    V2Emission.EmitsAll(c, id, j, m, num, 0, n, now);
    EmittedIsThere(fs, id, num, m, fp);
    WireIsPieces(c, wire, fs, id, num);
    Arrives(p, ch, wire + Elems(fs), id, num, m, fp, first, xs, last);
  }

  /** Service writes nothing either, and keeps both ends in agreement. */
  lemma ServicedFine(c: Conn, peer: Conn, wire: set<Frame>, now: u32)
    requires ConnShaped(c) && Fine(c, peer) && WireFine(wire, Payload(c), c)
    ensures var c1 := V2Resend.Serviced(c, now);
      && Fine(c1, peer) && WireFine(wire, Payload(c1), c1) && forall id: u8 :: WrittenAt(c1, id) == WrittenAt(c, id)
  {
    hide Shaped, WrittenAt, Genuine, Sound, ChansFine, ServiceFrom;
    ServiceFine(c, peer, 0, now);
    V2Acks.ServiceMild(c, 0, now);
    var c1 := V2Resend.Serviced(c, now);
    forall id: u8 ensures WrittenAt(c1, id) == WrittenAt(c, id) { MildWrites(c, c1, id); }
    hide Fine, V2Resend.Serviced;
    forall f | f in wire ensures FrameFine(f, Payload(c1), c1) { assert FrameFine(f, Payload(c), c); }
  }

  lemma MildWrites(c: Conn, c1: Conn, id: u8)
    requires V2Acks.ConnMild(c, c1)
    ensures WrittenAt(c1, id) == WrittenAt(c, id)
  {
    hide Shaped;
    if id in c.chans { assert V2Acks.Mild(c.chans[id], c1.chans[id]); }
  }

  /** A message all of whose fragments were lost still arrives. In any state the system can be
      in, once the wait of a message that has gone out is over and none of its channel's
      slots is spent, netchan_service and asking for packets put it on the wire again, and
      a receiver that hears its fragments from there hands on exactly the message. */
  lemma LostStillArrives(c: Conn, peer: Conn, wire: set<Frame>, id: u8, j: nat, num: u16, m: Message, t: u32, a: nat,
                         now: u32, n: nat, t1: u32, p: Pool, ch: Chan, first: Frame, xs: seq<Arrival>, last: Frame)
    requires Fine(c, peer) && V2Resend.ConnCounted(c) && V2Resend.WentOut(c, id, j, m, num, t, a)
    requires Few(c.chans[id].written) && num < |c.chans[id].written| && c.chans[id].written[num] == m
    requires t > 0 && 1 <= a < 5 && Wrap32(now - t) >= V2Resend.Backoff(c.rt, a)
    requires !V2Resend.SomeSpent(c.chans[id], c.rt, now, 0, SLOTS - 1)
    requires WireFine(wire, Payload(c), c) && 1 < Pieces(|m|, Payload(c))
    requires n >= V2Emission.Debt(V2Resend.Serviced(c, now))
    requires Tidy(ch) && (exists w :: Owns(p, ch, w)) && Vacant(ch, num) && p.free != []
    requires Covers(first, xs, last, wire + Elems(V2Emission.SendMany(V2Resend.Serviced(c, now), n, t1).1), id, num,
                    Pieces(|m|, Payload(c)))
    ensures var (p1, c1) := ReceiveAll(p, ch, Payload(c), [Heard(first)] + xs);
            var (p2, c2) := Receive(p1, c1, Payload(c), Heard(last));
      HandedOn(p1, c1, p2, c2, num, m)
  {
    hide Fine, Sound, Owns, Tidy, Vacant, Covers, V2Emission.SendMany, V2Emission.Debt;
    hide HandedOn, Receive, ReceiveAll, Pieces, AllThere, V2Resend.Serviced, V2Resend.ConnCounted;
    hide V2Resend.SomeSpent, V2Resend.Backoff, Wrap32, WireFine, Content;
    V2Resend.Rearms(c, id, j, m, num, t, a, now);
    ServicedFine(c, peer, wire, now);
    var k := V2Resend.Serviced(c, now);
    assert k.chans[id].written == WrittenAt(k, id) == WrittenAt(c, id) == c.chans[id].written;
    FragmentsSurvive(k, peer, wire, id, j, num, m, n, t1, p, ch, first, xs, last);
  }

  /** No slot has the message yet and there is one for it. */
  predicate Vacant(ch: Chan, num: u16) {
    Shaped(ch) && FragFind(ch.frags, num, 0) == FRAG_SLOTS && FragIdle(ch.frags, 0) < FRAG_SLOTS
  }

  /** The frames of message `num` are from the wire, the last is new, and none is missing. */
  predicate Covers(first: Frame, xs: seq<Arrival>, last: Frame, wire: set<Frame>, id: u8, num: u16, total: nat) {
    && OffWire(first, wire, id, num) && first.num == num && OffWire(last, wire, id, num) && last.num == num
    && AllOffWire(xs, wire, id, num)
    && var got := {first.idx as nat} + V2Reassembly.Got(EventsOf(xs, num));
       last.idx !in got && got + {last.idx as nat} == Below(total)
  }

  lemma Arrives(p: Pool, ch: Chan, wire: set<Frame>, id: u8, num: u16, m: Message, fp: nat, first: Frame,
                xs: seq<Arrival>, last: Frame)
    requires Tidy(ch) && (exists w :: Owns(p, ch, w)) && Admissible(fp) && 0 < |m| <= MAX_MSG && 1 < Pieces(|m|, fp)
    requires Vacant(ch, num) && p.free != [] && AllPieces(wire, id, num, m, fp)
    requires Covers(first, xs, last, wire, id, num, Pieces(|m|, fp))
    ensures var (p1, c1) := ReceiveAll(p, ch, fp, [Heard(first)] + xs);
            var (p2, c2) := Receive(p1, c1, fp, Heard(last));
      HandedOn(p1, c1, p2, c2, num, m)
  {
    hide Owns, Tidy, Pieces, AllPieces, V2Reassembly.Happen, V2Reassembly.Run, Receive, ReceiveAll;
    var es := EventsOf(xs, num);
    ReceiveIs(p, ch, wire, id, num, m, fp, Heard(first));
    var (p0, c0) := Receive(p, ch, fp, Heard(first));
    ReceiveAllIs(p0, c0, wire, id, num, m, fp, xs);
    var (p1, c1) := ReceiveAll(p0, c0, fp, xs);
    ReceiveCons(p, ch, fp, Heard(first), xs);
    ReceiveIs(p1, c1, wire, id, num, m, fp, Heard(last));
    assert last.idx in Below(Pieces(|m|, fp)) && first.idx in Below(Pieces(|m|, fp));
    V2Reassembly.Reassembles(p, ch, fp, num, m, first.idx, es, last.idx);
  }

  lemma {:induction false} ReceiveCons(p: Pool, ch: Chan, fp: nat, x: Arrival, xs: seq<Arrival>)
    requires Shaped(ch)
    ensures var (p0, c0) := Receive(p, ch, fp, x); ReceiveAll(p, ch, fp, [x] + xs) == ReceiveAll(p0, c0, fp, xs)
    decreases |xs|
  {
    hide Receive;
    if xs == [] {
      assert [x] + xs == [x] && [x][..0] == [];
      assert ReceiveAll(p, ch, fp, [x]) == Receive(p, ch, fp, x);
    } else {
      assert ([x] + xs)[..|xs|] == [x] + xs[..|xs| - 1];
      ReceiveCons(p, ch, fp, x, xs[..|xs| - 1]);
    }
  }
}
