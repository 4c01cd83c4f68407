/** Two netchan-v2 connections over a network that loses, repeats and reorders frames. */
module V2System {
  import opened Bytes
  import opened V2Channel
  import opened V2Pool
  import opened V2Fragments
  import opened V2Receiver
  import opened V2Sender
  import opened V2Conn

  /** The messages accepted for sending on channel `id`. */
  function WrittenAt(c: Conn, id: u8): seq<Message> {
    if id in c.chans && c.chans[id].sender then c.chans[id].written else []
  }

  /** A sending channel holds what it has written; a reliable receiving channel, what the
      other end wrote. */
  predicate ChanFine(p: Pool, ch: Chan, fp: nat, sent: seq<Message>) {
    && Shaped(ch)
    && (ch.sender ==> Sends(p, ch, fp))
    && (!ch.sender && ch.kind != UNRELIABLE && Few(sent) ==> Good(p, ch, fp, sent) && Settled(ch))
  }

  ghost predicate Fine(c: Conn, peer: Conn) {
    Sound(c) && ConnShaped(c) && Admissible(Payload(c)) && ChansFine(c, peer)
  }

  predicate ChansFine(c: Conn, peer: Conn)
    requires c.mtu > OVERHEAD
  {
    forall id :: id in c.chans ==> ChanFine(c.pool, c.chans[id], Payload(c), WrittenAt(peer, id))
  }

  /** What one channel does leaves the others as they were. */
  lemma OthersUndisturbed(c: Conn, hs: seq<Holder>, id: u8, p: Pool, w: seq<Owner>, j: u8)
    requires ConnShaped(c) && Holds(c, hs) && id in c.chans && j in c.chans && j != id
    requires Aside(c.pool, SeenBy(hs, id), p, w)
    ensures Undisturbed(c.pool, c.chans[j], p, c.chans[j], {})
  {
    forall pl | At(c.chans[j], pl) != NOBUF
        ensures Buffer(p, At(c.chans[j], pl)) == Buffer(c.pool, At(c.chans[j], pl)) {
      InSlotIs(c, hs, j, pl);
      assert SeenBy(hs, id)[At(c.chans[j], pl)] == Other;
    }
  }

  lemma ChanKept(p: Pool, ch: Chan, p': Pool, ch': Chan, fp: nat, sent: seq<Message>)
    requires Tidy(ch) && ChanFine(p, ch, fp, sent) && Undisturbed(p, ch, p', ch', {})
    requires ch' == ch.(state := ch'.state, sendWindow := ch'.sendWindow, needAck := ch'.needAck,
             needWindow := ch'.needWindow)
    ensures ChanFine(p', ch', fp, sent)
  {
    if ch.sender { SendsKept(p, ch, p', ch', fp); }
    if !ch.sender && ch.kind != UNRELIABLE && Few(sent) { GoodKept(p, ch, p', ch', fp, sent); }
  }

  lemma StepFine(c: Conn, peer: Conn, hs: seq<Holder>, id: u8, p: Pool, ch: Chan, w: seq<Owner>)
    requires Fine(c, peer) && Holds(c, hs) && id in c.chans
    requires Owns(p, ch, w) && Tidy(ch) && Accounted(ch) && Aside(c.pool, SeenBy(hs, id), p, w)
    requires ChanFine(p, ch, Payload(c), WrittenAt(peer, id))
    ensures Fine(With(c, id, p, ch), peer)
  {
    StepSound(c, hs, id, p, ch, w);
    StepChans(c, peer, hs, id, p, ch, w);
    hide Sound, Holds, Owns, Aside, ChansFine, Tidy, Accounted, Shaped;
  }

  lemma StepChans(c: Conn, peer: Conn, hs: seq<Holder>, id: u8, p: Pool, ch: Chan, w: seq<Owner>)
    requires ConnShaped(c) && ChansFine(c, peer) && Holds(c, hs) && id in c.chans && Shaped(ch)
    requires forall j :: j in c.chans ==> Tidy(c.chans[j])
    requires Aside(c.pool, SeenBy(hs, id), p, w) && ChanFine(p, ch, Payload(c), WrittenAt(peer, id))
    ensures ChansFine(With(c, id, p, ch), peer)
  {
    hide ChanFine, Tidy, Owns, Aside, Shaped, Holds;
    var c' := With(c, id, p, ch);
    forall j | j in c'.chans ensures ChanFine(p, c'.chans[j], Payload(c'), WrittenAt(peer, j)) {
      if j != id {
        OthersUndisturbed(c, hs, id, p, w, j);
        ChanKept(c.pool, c.chans[j], p, c.chans[j], Payload(c), WrittenAt(peer, j));
      }
    }
  }

  // ----- each call -----

  lemma OpenFine(c: Conn, peer: Conn, id: u8, kind: nat, sender: bool, state: nat, next: u8)
    requires Fine(c, peer) && id !in c.chans
    ensures Fine(With(c.(nextId := next), id, c.pool, NewChan(kind, sender, state, c.window)), peer)
  {
    hide NewChan, ChanFine, Sound, WrittenAt, Shaped;
    OpenSound(c, id, kind, sender, state, next);
    NewChanFine(c.pool, kind, sender, state, c.window, Payload(c), WrittenAt(peer, id));
  }

  lemma NewChanFine(p: Pool, kind: nat, sender: bool, state: nat, window: u32, fp: nat, sent: seq<Message>)
    ensures ChanFine(p, NewChan(kind, sender, state, window), fp, sent)
  {
    assert sent[..0] == [];
  }

  lemma RelabelFine(c: Conn, peer: Conn, id: u8, ch: Chan)
    requires Fine(c, peer) && id in c.chans
    requires ch == c.chans[id].(state := ch.state, sendWindow := ch.sendWindow, needAck := ch.needAck,
             needWindow := ch.needWindow)
    ensures Fine(With(c, id, c.pool, ch), peer)
  {
    var hs :| Holds(c, hs);
    var w := SeenBy(hs, id);
    Relabel(c.pool, c.chans[id], w, ch);
    ChanKept(c.pool, c.chans[id], c.pool, ch, Payload(c), WrittenAt(peer, id));
    assert Accounted(ch);
    hide Sound, ChanFine, Undisturbed, Tidy, Accounted;
    StepFine(c, peer, hs, id, c.pool, ch, w);
  }

  lemma WriteFine(c: Conn, peer: Conn, id: u8, data: Message)
    requires Fine(c, peer) && id in c.chans && c.chans[id].sender
    ensures Fine(WriteTo(c, id, data).0, peer)
  {
    var hs :| Holds(c, hs);
    var (p, ch, res) := Write(c.pool, c.chans[id], Payload(c), data);
    var w' := WriteSends(c.pool, c.chans[id], Payload(c), data, SeenBy(hs, id));
    WriteAccounts(c.pool, c.chans[id], Payload(c), data);
    assert ch.sender;
    hide Write, Sound, Sends, Owns, Tidy, Accounted, Aside, Undisturbed;
    StepFine(c, peer, hs, id, p, ch, w');
  }

  lemma ReadFine(c: Conn, peer: Conn, id: u8, room: nat)
    requires Fine(c, peer) && id in c.chans && !c.chans[id].sender
    ensures Fine(ReadFrom(c, id, room).0, peer)
  {
    var hs :| Holds(c, hs);
    var (p, ch, m) := Read(c.pool, c.chans[id], room);
    var w, sent := SeenBy(hs, id), WrittenAt(peer, id);
    var w';
    if c.chans[id].kind != UNRELIABLE && Few(sent) {
      w' := ReadGood(c.pool, c.chans[id], Payload(c), room, sent, w);
    } else {
      w' := ReadOwns(c.pool, c.chans[id], room, w);
    }
    assert Accounted(ch) && ch.kind == c.chans[id].kind && !ch.sender;
    hide Read, Sound, Sends, Good, Settled, Owns, Tidy, Accounted, Aside, Undisturbed;
    StepFine(c, peer, hs, id, p, ch, w');
  }

  /** A frame of message data is what the sender of its channel cut. */
  predicate FrameFine(f: Frame, fp: nat, c: Conn) {
    f.DataFrame? && Few(WrittenAt(c, f.id)) ==> Genuine(f.num, f.idx, f.total, f.data, fp, WrittenAt(c, f.id))
  }

  lemma DataFine(c: Conn, peer: Conn, f: Frame)
    requires Fine(c, peer) && f.DataFrame? && FrameFine(f, Payload(c), peer)
    requires f.id in c.chans && !c.chans[f.id].sender
    ensures Fine(Hear(c, f), peer)
  {
    var id, fp := f.id, Payload(c);
    var hs :| Holds(c, hs);
    var (p, ch) := Data(c.pool, c.chans[id], fp, f.num, f.idx, f.total, f.data);
    var w, sent := SeenBy(hs, id), WrittenAt(peer, id);
    assert Tidy(c.chans[id]) && Accounted(c.chans[id]);
    hide Data, Genuine;
    var w';
    if c.chans[id].kind != UNRELIABLE && Few(sent) {
      w' := DataGood(c.pool, c.chans[id], fp, f.num, f.idx, f.total, f.data, sent, w);
    } else {
      w' := DataOwns(c.pool, c.chans[id], fp, f.num, f.idx, f.total, f.data, w);
    }
    assert Accounted(ch) && ch.kind == c.chans[id].kind && !ch.sender;
    hide Sound, Sends, Good, Settled, Owns, Tidy, Accounted, Aside, Undisturbed;
    StepFine(c, peer, hs, id, p, ch, w');
  }

  lemma AckFine(c: Conn, peer: Conn, id: u8, num: u16)
    requires Fine(c, peer) && id in c.chans && c.chans[id].sender
    ensures Fine(Hear(c, AckFrame(id, num)), peer)
  {
    var hs :| Holds(c, hs);
    var (p, ch) := Ack(c.pool, c.chans[id], num);
    var w' := AckSends(c.pool, c.chans[id], Payload(c), num, SeenBy(hs, id));
    AckFromAccounts(c.pool, c.chans[id], num, 0);
    assert Accounted(ch) && ch.sender;
    hide Ack, Sound, Sends, Owns, Tidy, Accounted, Aside, Undisturbed;
    StepFine(c, peer, hs, id, p, ch, w');
  }

  lemma HearFine(c: Conn, peer: Conn, f: Frame)
    requires Fine(c, peer) && FrameFine(f, Payload(c), peer)
    ensures Fine(Hear(c, f), peer)
  {
    hide Sound, ChanFine, Data, Ack;
    match f
    case DataFrame(id, num, idx, total, data) =>
      if id in c.chans && !c.chans[id].sender { DataFine(c, peer, f); }
    case AckFrame(id, num) =>
      if id in c.chans && c.chans[id].sender { AckFine(c, peer, id, num); }
    case WindowFrame(id, window) =>
      if id in c.chans && c.chans[id].sender {
        var ch := c.chans[id];
        RelabelFine(c, peer, id, ch.(sendWindow := window, state := if ch.state == 0 then 1 else ch.state));
      }
    case OpenFrame(id, kind, theySend) =>
      if id !in c.chans && |c.chans| < MAX_CHAN {
        OpenFine(c, peer, id, kind, !theySend, 1, c.nextId);
        assert c.(nextId := c.nextId) == c;
      }
    case CloseFrame(id) =>
      if id in c.chans { RelabelFine(c, peer, id, c.chans[id].(state := 3)); }
  }

  /** The histories of sending only grow. */
  predicate Grows(c: Conn, c': Conn) {
    && c'.mtu == c.mtu
    && forall id: u8 :: |WrittenAt(c, id)| <= |WrittenAt(c', id)|
                        && WrittenAt(c', id)[..|WrittenAt(c, id)|] == WrittenAt(c, id)
  }

  lemma {:induction false} FlushFine(c: Conn, peer: Conn, i: nat, pos: nat, mtu: nat)
    requires Fine(c, peer)
    ensures var (c', _, fs) := FlushFrom(c, i, pos, mtu); Fine(c', peer) && Grows(c, c')
    decreases 256 - i
  {
    hide Sound, ChansFine, Shaped, WrittenAt;
    assert ConnShaped(c) && Grows(c, c);
    hide Fine, Grows, ConnShaped;
    if i >= 256 || pos + 6 > mtu {
    } else if i !in c.chans {
      FlushFine(c, peer, i + 1, pos, mtu);
    } else {
      FlushOne(c, peer, i, pos, mtu);
      var (c1, pos1, fs1) := FlushAck(c.chans[i], i, pos, mtu);
      var (c2, pos2, fs2) := FlushWindow(c1, i, pos1, mtu);
      var k := With(c, i, c.pool, c2);
      FlushFine(k, peer, i + 1, pos2, mtu);
      GrowsChain(c, k, FlushFrom(k, i + 1, pos2, mtu).0);
    }
  }

  lemma FlushOne(c: Conn, peer: Conn, i: u8, pos: nat, mtu: nat)
    requires Fine(c, peer) && i in c.chans
    ensures Shaped(c.chans[i])
    ensures var (c1, pos1, fs1) := FlushAck(c.chans[i], i, pos, mtu);
            var (c2, pos2, fs2) := FlushWindow(c1, i, pos1, mtu);
            var k := With(c, i, c.pool, c2);
      Fine(k, peer) && Grows(c, k)
  {
    hide Sound, ChansFine, WrittenAt, Grows;
    var (c1, pos1, fs1) := FlushAck(c.chans[i], i, pos, mtu);
    var (c2, pos2, fs2) := FlushWindow(c1, i, pos1, mtu);
    hide FlushAck, FlushWindow;
    RelabelFine(c, peer, i, c2);
    WithGrows(c, i, c.pool, c2);
  }

  predicate NoData(fs: seq<Frame>) { forall k :: 0 <= k < |fs| ==> !fs[k].DataFrame? }

  lemma {:induction false} FlushNoData(c: Conn, i: nat, pos: nat, mtu: nat)
    requires ConnShaped(c)
    ensures NoData(FlushFrom(c, i, pos, mtu).2)
    decreases 256 - i
  {
    if i >= 256 || pos + 6 > mtu {
    } else if i !in c.chans {
      FlushNoData(c, i + 1, pos, mtu);
    } else {
      var (c1, pos1, fs1) := FlushAck(c.chans[i], i, pos, mtu);
      var (c2, pos2, fs2) := FlushWindow(c1, i, pos1, mtu);
      FlushNoData(With(c, i, c.pool, c2), i + 1, pos2, mtu);
      assert NoData(fs1) && NoData(fs2);
      hide ConnShaped, Shaped;
    }
  }

  lemma WithGrows(c: Conn, id: u8, p: Pool, ch: Chan)
    requires ConnShaped(c) && Shaped(ch) && id in c.chans && ch.sender == c.chans[id].sender
    requires |c.chans[id].written| <= |ch.written| && ch.written[..|c.chans[id].written|] == c.chans[id].written
    ensures Grows(c, With(c, id, p, ch))
  {
    hide Shaped;
  }

  lemma GrowsChain(a: Conn, b: Conn, c: Conn)
    requires Grows(a, b) && Grows(b, c)
    ensures Grows(a, c)
  {
    forall id: u8 ensures |WrittenAt(a, id)| <= |WrittenAt(c, id)|
        && WrittenAt(c, id)[..|WrittenAt(a, id)|] == WrittenAt(a, id) {
      assert WrittenAt(c, id)[..|WrittenAt(b, id)|][..|WrittenAt(a, id)|] == WrittenAt(c, id)[..|WrittenAt(a, id)|];
    }
  }

  lemma TransmitFine(c: Conn, peer: Conn, id: u8, j: nat, now: u32)
    requires Fine(c, peer) && id in c.chans && c.chans[id].sender && j < SLOTS && c.chans[id].out[j].active
    ensures var (p, ch) := Transmit(c.pool, c.chans[id], j, now);
            Fine(With(c, id, p, ch), peer) && Grows(c, With(c, id, p, ch))
  {
    var hs :| Holds(c, hs);
    var (p, ch) := Transmit(c.pool, c.chans[id], j, now);
    var w' := TransmitSends(c.pool, c.chans[id], Payload(c), j, now, SeenBy(hs, id));
    TransmitAccounts(c.pool, c.chans[id], j, now);
    assert ch.sender && ch.written == c.chans[id].written;
    hide Transmit, Sound, Sends, Owns, Tidy, Accounted, Aside, Undisturbed, Grows, ChansFine;
    WithGrows(c, id, p, ch);
    StepFine(c, peer, hs, id, p, ch, w');
  }

  lemma FrameOfFine(c: Conn, peer: Conn, id: u8, j: nat)
    requires Fine(c, peer) && id in c.chans && c.chans[id].sender && j < SLOTS
    requires c.chans[id].out[j].active && c.chans[id].out[j].fragSent < c.chans[id].out[j].fragTotal
    ensures FrameFine(FrameOf(c, id, j), Payload(c), c)
  {
    hide Genuine, PieceOf, Tidy, Accounted, Owns, Good, Settled;
    if Few(WrittenAt(c, id)) {
      var hs :| Holds(c, hs);
      PieceGenuine(c.pool, c.chans[id], Payload(c), j);
    }
  }

  predicate AllFine(fs: seq<Frame>, fp: nat, c: Conn) { forall k :: 0 <= k < |fs| ==> FrameFine(fs[k], fp, c) }

  /** Later writes leave earlier frames true. */
  lemma FrameLater(f: Frame, fp: nat, c: Conn, c': Conn)
    requires FrameFine(f, fp, c) && Grows(c, c')
    ensures FrameFine(f, fp, c')
  {
    if f.DataFrame? && Few(WrittenAt(c', f.id)) {
      var was, now := WrittenAt(c, f.id), WrittenAt(c', f.id);
      assert now[..|was|][f.num] == now[f.num];
      hide Pieces, Offset, Cut;
    }
  }

  lemma {:induction false} DataFromFine(c: Conn, peer: Conn, i: nat, pos: nat, mtu: nat, now: u32)
    requires Fine(c, peer)
    ensures var (c', _, fs) := DataFrom(c, i, pos, mtu, now);
      Fine(c', peer) && Grows(c, c') && AllFine(fs, Payload(c), c')
    decreases 256 - i
  {
    hide Sound, Transmit, PieceLen, FrameOf, FrameFine, ChansFine, WrittenAt;
    if i >= 256 || pos + 9 > mtu {
    } else if i !in c.chans || !c.chans[i].sender || c.chans[i].state != 1 {
      DataFromFine(c, peer, i + 1, pos, mtu, now);
    } else {
      var ch := c.chans[i];
      var j := NextSendable(ch, ch.outHead);
      if j == SLOTS {
        DataFromFine(c, peer, i + 1, pos, mtu, now);
      } else {
        var n := PieceLen(ch.out[j], Payload(c));
        if pos + 8 + n <= mtu {
          var f := FrameOf(c, i, j);
          FrameOfFine(c, peer, i, j);
          var (p, ch1) := Transmit(c.pool, ch, j, now);
          TransmitFine(c, peer, i, j, now);
          var k := With(c, i, p, ch1);
          hide Fine, Grows;
          DataFromFine(k, peer, i + 1, pos + 8 + n, mtu, now);
          var (c', _, fs) := DataFrom(k, i + 1, pos + 8 + n, mtu, now);
          GrowsChain(c, k, c');
          FrameLater(f, Payload(c), c, c');
        }
      }
    }
  }

  lemma {:induction false} ServiceFine(c: Conn, peer: Conn, i: nat, now: u32)
    requires Fine(c, peer)
    ensures Fine(ServiceFrom(c, i, now), peer) && Grows(c, ServiceFrom(c, i, now))
    decreases 256 - i
  {
    if i >= 256 {
    } else if i !in c.chans || !c.chans[i].sender || c.chans[i].kind != RELIABLE {
      hide Fine, Grows;
      ServiceFine(c, peer, i + 1, now);
    } else {
      RetransmitFine(c, peer, i, now);
      hide Fine, Grows;
      var k := With(c, i, c.pool, Retransmit(c.chans[i], c.rt, now, 0));
      ServiceFine(k, peer, i + 1, now);
      GrowsChain(c, k, ServiceFrom(k, i + 1, now));
    }
  }

  lemma RetransmitFine(c: Conn, peer: Conn, i: u8, now: u32)
    requires Fine(c, peer) && i in c.chans && c.chans[i].sender
    ensures var k := With(c, i, c.pool, Retransmit(c.chans[i], c.rt, now, 0)); Fine(k, peer) && Grows(c, k)
  {
    var hs :| Holds(c, hs);
    var w := SeenBy(hs, i);
    var ch := Retransmit(c.chans[i], c.rt, now, 0);
    RetransmitOwns(c.pool, c.chans[i], c.rt, now, 0, w);
    RetransmitAccounts(c.chans[i], c.rt, now, 0);
    RetransmitSends(c.pool, c.chans[i], Payload(c), c.rt, now, 0);
    hide Retransmit, Owns, Tidy, Accounted, Sends, Sound, Grows, ChansFine;
    WithGrows(c, i, c.pool, ch);
    StepFine(c, peer, hs, i, c.pool, ch, w);
  }

  /** A write on a receiving channel and a read on a sending one do nothing. */
  lemma WrongEnd(c: Conn, id: u8, data: Message, room: nat)
    requires ConnShaped(c)
    ensures id !in c.chans || !c.chans[id].sender ==> WriteTo(c, id, data).0 == c
    ensures id !in c.chans || c.chans[id].sender ==> ReadFrom(c, id, room).0 == c
  {
    if id in c.chans { assert With(c, id, c.pool, c.chans[id]) == c; }
  }

  lemma NextIdFine(c: Conn, peer: Conn, next: u8)
    requires Fine(c, peer)
    ensures Fine(c.(nextId := next), peer)
  {
    hide Sound, ChanFine, WrittenAt, Shaped;
    NextIdSound(c, next);
  }

  lemma OpenChanFine(c: Conn, peer: Conn, kind: u8, send: bool)
    requires Fine(c, peer)
    ensures Fine(OpenChan(c, kind, send), peer)
  {
    hide Sound, ChansFine, Shaped, WrittenAt, NewChan;
    assert ConnShaped(c);
    hide Fine, ConnShaped;
    var id := c.nextId;
    if id !in c.chans {
      var next := if id >= 254 then id - 254 else id + 2;
      NextIdFine(c, peer, next);
      OpenFine(c, peer, id, kind, send, if send then 0 else 1, next);
    }
  }

  lemma SendNextFine(c: Conn, peer: Conn, pos: nat, room: nat, now: u32)
    requires Fine(c, peer)
    ensures var (c', fs) := SendNext(c, pos, room, now); Fine(c', peer) && Grows(c, c') && AllFine(fs, Payload(c), c')
  {
    FlushFine(c, peer, 0, pos, room);
    FlushNoData(c, 0, pos, room);
    var (c1, pos1, fs1) := FlushFrom(c, 0, pos, room);
    assert Payload(c1) == Payload(c);
    hide Fine, FlushFrom, Payload, ConnShaped;
    DataFromFine(c1, peer, 0, pos1, room, now);
    var (c2, pos2, fs2) := DataFrom(c1, 0, pos1, room, now);
    GrowsChain(c, c1, c2);
    hide Grows, DataFrom;
    assert AllFine(fs1, Payload(c), c2);
    FineConcat(fs1, fs2, Payload(c), c2);
  }

  lemma FineConcat(fs: seq<Frame>, gs: seq<Frame>, fp: nat, c: Conn)
    requires AllFine(fs, fp, c) && AllFine(gs, fp, c)
    ensures AllFine(fs + gs, fp, c)
  {
    hide FrameFine;
  }

  lemma DoFine(c: Conn, peer: Conn, call: Call)
    requires Fine(c, peer) && (call.Feed? ==> FrameFine(call.frame, Payload(c), peer))
    ensures Fine(Do(c, call).0, peer)
  {
    hide Sound, ChansFine, Shaped, WrittenAt;
    assert ConnShaped(c);
    hide Fine, OpenChan, Hear, SendNext, ServiceFrom;
    match call
    case Open(kind, send) => OpenChanFine(c, peer, kind, send);
    case Close(id) =>
      if id in c.chans && c.chans[id].state < 2 { RelabelFine(c, peer, id, c.chans[id].(state := 2)); }
    case WriteCall(id, data) =>
      WrongEnd(c, id, data, 0);
      if id in c.chans && c.chans[id].sender { WriteFine(c, peer, id, data); }
    case ReadCall(id, room) =>
      WrongEnd(c, id, [], room);
      if id in c.chans && !c.chans[id].sender { ReadFine(c, peer, id, room); }
    case Feed(frame) => HearFine(c, peer, frame);
    case Send(pos, room, now) => SendNextFine(c, peer, pos, room, now);
    case Service(now) => ServiceFine(c, peer, 0, now);
  }

  lemma HearGrows(c: Conn, f: Frame)
    requires ConnShaped(c)
    ensures Grows(c, Hear(c, f))
  {
    hide Data, Ack, NewChan, Grows;
    var c' := Hear(c, f);
    if f.id !in c.chans {
      StrangerGrows(c, c', f.id);
    } else {
      var ch := c'.chans[f.id];
      WithGrows(c, f.id, c'.pool, ch);
      assert With(c, f.id, c'.pool, ch) == c';
    }
  }

  lemma StrangerGrows(c: Conn, c': Conn, id: u8)
    requires id !in c.chans && c'.mtu == c.mtu
    requires forall j :: j in c.chans && j != id ==> j in c'.chans && c'.chans[j] == c.chans[j]
    ensures Grows(c, c')
  {}

  lemma OpenChanGrows(c: Conn, kind: u8, send: bool)
    requires ConnShaped(c)
    ensures Grows(c, OpenChan(c, kind, send))
  {
    hide NewChan, Shaped;
  }

  lemma WriteGrows(c: Conn, id: u8, data: Message)
    requires ConnShaped(c)
    ensures Grows(c, WriteTo(c, id, data).0)
  {
    if id in c.chans {
      var (p, ch, res) := Write(c.pool, c.chans[id], Payload(c), data);
      assert ch.written == c.chans[id].written || ch.written == c.chans[id].written + [data];
      hide Write, Grows;
      WithGrows(c, id, p, ch);
    }
  }

  lemma ReadGrows(c: Conn, id: u8, room: nat)
    requires ConnShaped(c)
    ensures Grows(c, ReadFrom(c, id, room).0)
  {
    if id in c.chans {
      var (p, ch, m) := Read(c.pool, c.chans[id], room);
      hide Read, Grows;
      WithGrows(c, id, p, ch);
    }
  }

  lemma CloseGrows(c: Conn, id: u8)
    requires ConnShaped(c)
    ensures Grows(c, CloseChan(c, id))
  {
    if id in c.chans { WithGrows(c, id, c.pool, c.chans[id].(state := 2)); }
  }

  lemma DoGrows(c: Conn, peer: Conn, call: Call)
    requires Fine(c, peer)
    ensures var (c', fs) := Do(c, call); Grows(c, c') && AllFine(fs, Payload(c), c')
  {
    hide Sound, ChansFine, Shaped, WrittenAt, Payload;
    assert ConnShaped(c) && Grows(c, c);
    hide Fine, Grows, OpenChan, CloseChan, Hear, SendNext, ServiceFrom, WriteTo, ReadFrom;
    match call
    case Open(kind, send) => OpenChanGrows(c, kind, send);
    case Close(id) =>
      CloseGrows(c, id);
    case WriteCall(id, data) => WriteGrows(c, id, data);
    case ReadCall(id, room) => ReadGrows(c, id, room);
    case Feed(frame) => HearGrows(c, frame);
    case Send(pos, room, now) => SendNextFine(c, peer, pos, room, now);
    case Service(now) => ServiceFine(c, peer, 0, now);
  }

  /** What the other end writes later changes nothing here. */
  lemma PeerGrows(c: Conn, peer: Conn, peer': Conn)
    requires Fine(c, peer) && Grows(peer, peer')
    ensures Fine(c, peer')
  {
    hide Sound, Sends, Good, Settled, Shaped;
    forall id | id in c.chans ensures ChanFine(c.pool, c.chans[id], Payload(c), WrittenAt(peer', id)) {
      var was, now := WrittenAt(peer, id), WrittenAt(peer', id);
      assert ChanFine(c.pool, c.chans[id], Payload(c), was);
      assert now == was + now[|was|..];
      hide WrittenAt, Grows;
      if !c.chans[id].sender && c.chans[id].kind != UNRELIABLE && Few(now) {
        GoodExtends(c.pool, c.chans[id], Payload(c), was, now[|was|..]);
      }
    }
  }

  // ----- the system -----

  /** The connections and all frames either has put on the wire. */
  datatype Sys = Sys(a: Conn, b: Conn, fromA: set<Frame>, fromB: set<Frame>)

  /** A call at one end, or the arrival of a frame: any frame of message data that was ever
      sent, at any time and any number of times, or any frame of another kind at all. */
  datatype Event = AtA(call: Call) | AtB(call: Call) | ToA(frame: Frame) | ToB(frame: Frame)

  function Elems(fs: seq<Frame>): set<Frame> { set i | 0 <= i < |fs| :: fs[i] }

  function Happen(s: Sys, e: Event): (r: Sys)
    requires ConnShaped(s.a) && ConnShaped(s.b)
    ensures ConnShaped(r.a) && ConnShaped(r.b)
  {
    match e
    case AtA(call) => if call.Feed? then s else var (a, fs) := Do(s.a, call); s.(a := a, fromA := s.fromA + Elems(fs))
    case AtB(call) => if call.Feed? then s else var (b, fs) := Do(s.b, call); s.(b := b, fromB := s.fromB + Elems(fs))
    case ToA(f) => if f.DataFrame? && f !in s.fromB then s else s.(a := Hear(s.a, f))
    case ToB(f) => if f.DataFrame? && f !in s.fromA then s else s.(b := Hear(s.b, f))
  }

  function RunSys(s: Sys, es: seq<Event>): (r: Sys)
    requires ConnShaped(s.a) && ConnShaped(s.b)
    ensures ConnShaped(r.a) && ConnShaped(r.b)
  {
    if es == [] then s else Happen(RunSys(s, es[..|es| - 1]), es[|es| - 1])
  }

  predicate WireFine(fs: set<Frame>, fp: nat, c: Conn) { forall f :: f in fs ==> FrameFine(f, fp, c) }

  ghost predicate Inv(s: Sys) {
    && Fine(s.a, s.b) && Fine(s.b, s.a) && s.a.mtu == s.b.mtu
    && WireFine(s.fromA, Payload(s.a), s.a) && WireFine(s.fromB, Payload(s.b), s.b)
  }

  lemma WireGrows(fs: set<Frame>, gs: seq<Frame>, fp: nat, c: Conn, c': Conn)
    requires WireFine(fs, fp, c) && Grows(c, c') && AllFine(gs, fp, c')
    ensures WireFine(fs + Elems(gs), fp, c')
  {
    forall f | f in fs + Elems(gs) ensures FrameFine(f, fp, c') {
      if f in fs { FrameLater(f, fp, c, c'); }
    }
  }

  /** One end acts; the other looks on. */
  lemma ActKeeps(c: Conn, peer: Conn, wire: set<Frame>, call: Call)
    requires Fine(c, peer) && Fine(peer, c) && WireFine(wire, Payload(c), c)
    requires call.Feed? ==> FrameFine(call.frame, Payload(c), peer)
    ensures var (c', fs) := Do(c, call);
      Fine(c', peer) && Fine(peer, c') && c'.mtu == c.mtu && WireFine(wire + Elems(fs), Payload(c), c')
  {
    DoFine(c, peer, call);
    DoGrows(c, peer, call);
    var (c', fs) := Do(c, call);
    hide Do, Fine;
    PeerGrows(peer, c, c');
    WireGrows(wire, fs, Payload(c), c, c');
  }

  lemma HappenKeeps(s: Sys, e: Event)
    requires Inv(s)
    ensures Inv(Happen(s, e))
  {
    hide Fine, WireFine, Do, Hear;
    match e
    case AtA(call) => if !call.Feed? { ActKeeps(s.a, s.b, s.fromA, call); MtuFine(s.a, s.b); }
    case AtB(call) => if !call.Feed? { ActKeeps(s.b, s.a, s.fromB, call); MtuFine(s.b, s.a); }
    case ToA(f) =>
      if !f.DataFrame? || f in s.fromB { HearKeeps(s.a, s.b, s.fromA, s.fromB, f); }
    case ToB(f) =>
      if !f.DataFrame? || f in s.fromA { HearKeeps(s.b, s.a, s.fromB, s.fromA, f); }
  }

  lemma MtuFine(c: Conn, peer: Conn)
    requires Fine(c, peer)
    ensures c.mtu > OVERHEAD
  {}

  lemma HearKeeps(c: Conn, peer: Conn, mine: set<Frame>, theirs: set<Frame>, f: Frame)
    requires Fine(c, peer) && Fine(peer, c) && c.mtu == peer.mtu && WireFine(mine, Payload(c), c)
             && WireFine(theirs, Payload(peer), peer)
    requires f.DataFrame? ==> f in theirs
    ensures var c' := Hear(c, f); Fine(c', peer) && Fine(peer, c') && c'.mtu == c.mtu && WireFine(mine, Payload(c), c')
  {
    hide Sound, ChansFine, Shaped, Hear;
    assert FrameFine(f, Payload(c), peer);
    hide Fine, FrameFine, WireFine;
    ActKeeps(c, peer, mine, Feed(f));
    assert mine + Elems([]) == mine;
  }

  function Start(mtu: nat, window: u32, window': u32, rt: nat, rt': nat): Sys {
    Sys(NewConn(mtu, window, rt, false), NewConn(mtu, window', rt', true), {}, {})
  }

  lemma StartHolds(mtu: nat, window: u32, window': u32, rt: nat, rt': nat)
    requires mtu > OVERHEAD && Admissible(mtu - OVERHEAD)
    ensures Inv(Start(mtu, window, window', rt, rt'))
  {
    NewConnSound(mtu, window, rt, false);
    NewConnSound(mtu, window', rt', true);
  }

  lemma {:induction false} RunKeeps(s: Sys, es: seq<Event>)
    requires Inv(s)
    ensures Inv(RunSys(s, es))
  {
    if es != [] {
      RunKeeps(s, es[..|es| - 1]);
      HappenKeeps(RunSys(s, es[..|es| - 1]), es[|es| - 1]);
    }
  }

  // ----- what every run promises -----

  /** A reliable receiving channel against what the other end wrote to it. */
  predicate Delivered(ch: Chan, sent: seq<Message>)
    requires Shaped(ch)
  {
    && |ch.kept| == ch.recvSeq <= |sent|
    && ch.arrived == Select(sent[..ch.recvSeq], ch.kept)
    && ((forall n :: 0 <= n < |ch.kept| ==> ch.kept[n]) ==> ch.arrived == sent[..ch.recvSeq])
    && Settled(ch)
  }

  lemma FineDelivers(c: Conn, peer: Conn, id: u8)
    requires Fine(c, peer) && id in c.chans && !c.chans[id].sender && c.chans[id].kind != UNRELIABLE
             && Few(WrittenAt(peer, id))
    ensures Delivered(c.chans[id], WrittenAt(peer, id))
    ensures QueueHolds(c.pool, c.chans[id])
  {
    var ch, sent := c.chans[id], WrittenAt(peer, id);
    assert ChanFine(c.pool, ch, Payload(c), sent);
    if forall n :: 0 <= n < |ch.kept| ==> ch.kept[n] { SelectAll(sent[..ch.recvSeq], ch.kept); }
  }

  /** In every run, either way round: what arrived on a reliable channel is an in-order
      subsequence of what was written, without repeats, and a prefix when the receive queue
      refused nothing; and every waiting message is in its slot, ahead of its turn. */
  lemma InOrderOnce(mtu: nat, window: u32, window': u32, rt: nat, rt': nat, es: seq<Event>, id: u8)
    requires mtu > OVERHEAD && Admissible(mtu - OVERHEAD)
    ensures var s0 := Start(mtu, window, window', rt, rt');
            ConnShaped(s0.a) && ConnShaped(s0.b) &&
            var s := RunSys(s0, es);
      && (id in s.b.chans && !s.b.chans[id].sender && s.b.chans[id].kind != UNRELIABLE && Few(WrittenAt(s.a, id)) ==>
            Delivered(s.b.chans[id], WrittenAt(s.a, id)) && QueueHolds(s.b.pool, s.b.chans[id]))
      && (id in s.a.chans && !s.a.chans[id].sender && s.a.chans[id].kind != UNRELIABLE && Few(WrittenAt(s.b, id)) ==>
            Delivered(s.a.chans[id], WrittenAt(s.b, id)) && QueueHolds(s.a.pool, s.a.chans[id]))
  {
    var s0 := Start(mtu, window, window', rt, rt');
    StartHolds(mtu, window, window', rt, rt');
    RunKeeps(s0, es);
    var s := RunSys(s0, es);
    hide RunSys, Start, Fine, Delivered, QueueHolds;
    if id in s.b.chans && !s.b.chans[id].sender && s.b.chans[id].kind != UNRELIABLE && Few(WrittenAt(s.a, id)) {
      FineDelivers(s.b, s.a, id);
    }
    if id in s.a.chans && !s.a.chans[id].sender && s.a.chans[id].kind != UNRELIABLE && Few(WrittenAt(s.b, id)) {
      FineDelivers(s.a, s.b, id);
    }
  }
}
