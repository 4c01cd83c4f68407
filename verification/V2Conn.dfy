/** A netchan-v2 connection: its channels over one shared pool, the frames it hears and
    sends, and conservation over every sequence of calls. */
module V2Conn {
  import opened Bytes
  import opened Finite
  import opened V2Channel
  import opened V2Pool

  const MAX_CHAN := 16

  datatype Frame =
    | DataFrame(id: u8, num: u16, idx: u8, total: u8, data: Message)
    | AckFrame(id: u8, num: u16)
    | WindowFrame(id: u8, window: u32)
    | OpenFrame(id: u8, kind: u8, theySend: bool)
    | CloseFrame(id: u8)

  datatype Conn = Conn(pool: Pool, chans: map<u8, Chan>, mtu: nat, window: u32, rt: nat, nextId: u8)

  predicate ConnShaped(c: Conn) {
    c.mtu > OVERHEAD && forall id :: id in c.chans ==> Shaped(c.chans[id])
  }

  /** max_frag_payload. */
  function Payload(c: Conn): (n: nat)
    requires c.mtu > OVERHEAD
    ensures n > 0
  {
    c.mtu - OVERHEAD
  }

  /** netchan_open, with the configured sizes. */
  function NewConn(mtu: nat, window: u32, rt: nat, server: bool): Conn {
    Conn(PoolInit(), map[], mtu, window, rt, if server then 1 else 0)
  }

  function With(c: Conn, id: u8, p: Pool, ch: Chan): (r: Conn)
    requires ConnShaped(c) && Shaped(ch)
    ensures ConnShaped(r)
  {
    c.(pool := p, chans := c.chans[id := ch])
  }

  // ----- calls -----

  function OpenChan(c: Conn, kind: u8, send: bool): (r: Conn)
    requires ConnShaped(c)
    ensures ConnShaped(r)
  {
    var id := c.nextId;
    if id in c.chans then c
    else
      var c1 := c.(nextId := if id >= 254 then id - 254 else id + 2);
      if |c.chans| >= MAX_CHAN then c1
      else With(c1, id, c.pool, NewChan(kind, send, if send then 0 else 1, c.window))
  }

  function CloseChan(c: Conn, id: u8): (r: Conn)
    requires ConnShaped(c)
    ensures ConnShaped(r)
  {
    if id !in c.chans || c.chans[id].state >= 2 then c else With(c, id, c.pool, c.chans[id].(state := 2))
  }

  function WriteTo(c: Conn, id: u8, data: Message): (r: (Conn, Wrote))
    requires ConnShaped(c)
    ensures ConnShaped(r.0)
  {
    if id !in c.chans then (c, Refused)
    else
      var (p, ch, res) := Write(c.pool, c.chans[id], Payload(c), data);
      (With(c, id, p, ch), res)
  }

  function ReadFrom(c: Conn, id: u8, room: nat): (r: (Conn, Message))
    requires ConnShaped(c)
    ensures ConnShaped(r.0)
  {
    if id !in c.chans then (c, [])
    else
      var (p, ch, m) := Read(c.pool, c.chans[id], room);
      (With(c, id, p, ch), m)
  }

  /** One received frame. */
  function Hear(c: Conn, f: Frame): (r: Conn)
    requires ConnShaped(c)
    ensures ConnShaped(r)
  {
    match f
    case DataFrame(id, num, idx, total, data) =>
      if id !in c.chans || c.chans[id].sender then c
      else
        var (p, ch) := Data(c.pool, c.chans[id], Payload(c), num, idx, total, data);
        With(c, id, p, ch)
    case AckFrame(id, num) =>
      if id !in c.chans || !c.chans[id].sender then c
      else
        var (p, ch) := Ack(c.pool, c.chans[id], num);
        With(c, id, p, ch)
    case WindowFrame(id, window) =>
      if id !in c.chans || !c.chans[id].sender then c
      else
        var ch := c.chans[id];
        With(c, id, c.pool, ch.(sendWindow := window, state := if ch.state == 0 then 1 else ch.state))
    case OpenFrame(id, kind, theySend) =>
      if id in c.chans || |c.chans| >= MAX_CHAN then c
      else With(c, id, c.pool, NewChan(kind, !theySend, 1, c.window))
    case CloseFrame(id) =>
      if id !in c.chans then c else With(c, id, c.pool, c.chans[id].(state := 3))
  }

  // ----- sending -----

  /** The pending acknowledgement of a channel, if it fits. */
  function FlushAck(ch: Chan, id: u8, pos: nat, mtu: nat): (r: (Chan, nat, seq<Frame>))
    requires Shaped(ch)
    ensures r.0 == ch.(needAck := r.0.needAck) && Shaped(r.0)
  {
    if ch.needAck && pos + 4 <= mtu then (ch.(needAck := false), pos + 4, [AckFrame(id, ch.ackSeq)]) else (ch, pos, [])
  }

  function FlushWindow(ch: Chan, id: u8, pos: nat, mtu: nat): (r: (Chan, nat, seq<Frame>))
    requires Shaped(ch)
    ensures r.0 == ch.(needWindow := r.0.needWindow) && Shaped(r.0)
  {
    if ch.needWindow && pos + 6 <= mtu then
      (ch.(needWindow := false), pos + 6,
       [WindowFrame(id, if ch.recvWindow > ch.recvBuffered then ch.recvWindow - ch.recvBuffered else 0)])
    else (ch, pos, [])
  }

  /** Acknowledgements and window updates of the channels from `i` on. */
  function FlushFrom(c: Conn, i: nat, pos: nat, mtu: nat): (r: (Conn, nat, seq<Frame>))
    requires ConnShaped(c)
    ensures ConnShaped(r.0)
    decreases 256 - i
  {
    if i >= 256 || pos + 6 > mtu then (c, pos, [])
    else if i !in c.chans then FlushFrom(c, i + 1, pos, mtu)
    else
      var (c1, pos1, fs1) := FlushAck(c.chans[i], i, pos, mtu);
      var (c2, pos2, fs2) := FlushWindow(c1, i, pos1, mtu);
      var (c', pos', fs) := FlushFrom(With(c, i, c.pool, c2), i + 1, pos2, mtu);
      (c', pos', fs1 + fs2 + fs)
  }

  /** One fragment of each open sending channel from `i` on, while they fit. */
  function DataFrom(c: Conn, i: nat, pos: nat, mtu: nat, now: u32): (r: (Conn, nat, seq<Frame>))
    requires ConnShaped(c)
    ensures ConnShaped(r.0)
    decreases 256 - i
  {
    if i >= 256 || pos + 9 > mtu then (c, pos, [])
    else if i !in c.chans || !c.chans[i].sender || c.chans[i].state != 1 then DataFrom(c, i + 1, pos, mtu, now)
    else
      var ch := c.chans[i];
      var j := NextSendable(ch, ch.outHead);
      if j == SLOTS then DataFrom(c, i + 1, pos, mtu, now)
      else
        var n := PieceLen(ch.out[j], Payload(c));
        if pos + 8 + n > mtu then (c, pos, [])
        else
          var f := FrameOf(c, i, j);
          var (p, ch1) := Transmit(c.pool, ch, j, now);
          var (c', pos', fs) := DataFrom(With(c, i, p, ch1), i + 1, pos + 8 + n, mtu, now);
          (c', pos', [f] + fs)
  }

  /** The DATA frame for the next fragment of slot `j`. */
  function FrameOf(c: Conn, id: u8, j: nat): Frame
    requires ConnShaped(c) && id in c.chans && j < SLOTS
  {
    var o := c.chans[id].out[j];
    DataFrame(id, o.num, o.fragSent % 0x100, o.fragTotal % 0x100, PieceOf(c.pool, o, Payload(c)))
  }

  /** netchan_send_next, after `pos` bytes of header and control frames; `room` is the
      smaller of the MTU and the caller's buffer. */
  function SendNext(c: Conn, pos: nat, room: nat, now: u32): (r: (Conn, seq<Frame>))
    requires ConnShaped(c)
    ensures ConnShaped(r.0)
  {
    var (c1, pos1, fs1) := FlushFrom(c, 0, pos, room);
    var (c2, pos2, fs2) := DataFrom(c1, 0, pos1, room, now);
    (c2, fs1 + fs2)
  }

  /** The retransmission part of netchan_service for the channels from `i` on. */
  function ServiceFrom(c: Conn, i: nat, now: u32): (r: Conn)
    requires ConnShaped(c)
    ensures ConnShaped(r)
    decreases 256 - i
  {
    if i >= 256 then c
    else if i !in c.chans || !c.chans[i].sender || c.chans[i].kind != RELIABLE then ServiceFrom(c, i + 1, now)
    else ServiceFrom(With(c, i, c.pool, Retransmit(c.chans[i], c.rt, now, 0)), i + 1, now)
  }

  // ----- every call -----

  datatype Call =
    | Open(kind: u8, send: bool)
    | Close(id: u8)
    | WriteCall(id: u8, data: Message)
    | ReadCall(id: u8, room: nat)
    | Feed(frame: Frame)
    | Send(pos: nat, room: nat, now: u32)
    | Service(now: u32)

  /** A call and the frames it puts on the wire. */
  function Do(c: Conn, call: Call): (r: (Conn, seq<Frame>))
    requires ConnShaped(c)
    ensures ConnShaped(r.0)
  {
    match call
    case Open(kind, send) => (OpenChan(c, kind, send), [])
    case Close(id) => (CloseChan(c, id), [])
    case WriteCall(id, data) => (WriteTo(c, id, data).0, [])
    case ReadCall(id, room) => (ReadFrom(c, id, room).0, [])
    case Feed(frame) => (Hear(c, frame), [])
    case Send(pos, room, now) => SendNext(c, pos, room, now)
    case Service(now) => (ServiceFrom(c, 0, now), [])
  }

  function Run(c: Conn, calls: seq<Call>): (r: Conn)
    requires ConnShaped(c)
    ensures ConnShaped(r)
  {
    if calls == [] then c else Do(Run(c, calls[..|calls| - 1]), calls[|calls| - 1]).0
  }

  // ----- conservation -----

  /** Who has a buffer: the free stack, or a slot of a channel. */
  datatype Holder = OnStack(at: nat) | InSlot(id: u8, place: Place)

  function Seen(h: Holder, id: u8): Owner {
    match h
    case OnStack(k) => Free(k)
    case InSlot(j, pl) => if j == id then Mine(pl) else Other
  }

  function SeenBy(hs: seq<Holder>, id: u8): (w: seq<Owner>)
    ensures |w| == |hs| && forall b :: 0 <= b < |hs| ==> w[b] == Seen(hs[b], id)
  {
    seq(|hs|, b requires 0 <= b < |hs| => Seen(hs[b], id))
  }

  ghost predicate Holds(c: Conn, hs: seq<Holder>) {
    && |hs| == BUFS && PoolShaped(c.pool)
    && (forall k :: 0 <= k < |c.pool.free| ==> 0 <= c.pool.free[k] < BUFS && hs[c.pool.free[k]] == OnStack(k))
    && (forall b :: 0 <= b < BUFS && hs[b].OnStack? ==> hs[b].at < |c.pool.free| && c.pool.free[hs[b].at] == b)
    && (forall b :: 0 <= b < BUFS && hs[b].InSlot? ==> hs[b].id in c.chans)
    && (forall id :: id in c.chans ==> Owns(c.pool, c.chans[id], SeenBy(hs, id)))
  }

  /** Every channel is tidy and its byte count right, and every buffer has one holder. */
  ghost predicate Sound(c: Conn) {
    && c.mtu > OVERHEAD
    && (forall id :: id in c.chans ==> Tidy(c.chans[id]) && Accounted(c.chans[id]))
    && exists hs :: Holds(c, hs)
  }

  /** A channel's step, seen from the connection. */
  function Merge(hs: seq<Holder>, id: u8, w: seq<Owner>): (r: seq<Holder>)
    requires |hs| == |w|
    ensures |r| == |hs|
    ensures forall b :: 0 <= b < |hs| ==>
      r[b] == match w[b] { case Free(k) => OnStack(k) case Mine(pl) => InSlot(id, pl) case Other => hs[b] }
  {
    seq(|hs|, b requires 0 <= b < |hs| =>
      match w[b] { case Free(k) => OnStack(k) case Mine(pl) => InSlot(id, pl) case Other => hs[b] })
  }

  lemma StepHolds(c: Conn, hs: seq<Holder>, id: u8, p: Pool, ch: Chan, w: seq<Owner>)
    requires ConnShaped(c) && Holds(c, hs) && id in c.chans
    requires Owns(p, ch, w) && Aside(c.pool, SeenBy(hs, id), p, w)
    ensures Holds(With(c, id, p, ch), Merge(hs, id, w))
  {
    var hs' := Merge(hs, id, w);
    var c' := With(c, id, p, ch);
    assert SeenBy(hs', id) == w;
    forall j | j in c'.chans ensures Owns(p, c'.chans[j], SeenBy(hs', j)) {
      if j != id { OthersKeep(c, hs, id, p, w, j); }
    }
  }

  lemma OthersKeep(c: Conn, hs: seq<Holder>, id: u8, p: Pool, w: seq<Owner>, j: u8)
    requires ConnShaped(c) && Holds(c, hs) && id in c.chans && j in c.chans && j != id
    requires PoolShaped(p) && |w| == BUFS && FreeOwned(p, w) && Aside(c.pool, SeenBy(hs, id), p, w)
    ensures Owns(p, c.chans[j], SeenBy(Merge(hs, id, w), j))
  {
    MergeSeen(hs, id, w, j);
    SameOwner(p, c.chans[j], SeenBy(hs, j), w, SeenBy(Merge(hs, id, w), j));
  }

  lemma MergeSeen(hs: seq<Holder>, id: u8, w: seq<Owner>, j: u8)
    requires |hs| == |w| == BUFS && id != j
    requires forall b :: 0 <= b < BUFS ==> (w[b] == Other <==> SeenBy(hs, id)[b] == Other)
    ensures forall b :: 0 <= b < BUFS ==> Alike(SeenBy(hs, j)[b], w[b], SeenBy(Merge(hs, id, w), j)[b])
  {
    forall b | 0 <= b < BUFS ensures Alike(SeenBy(hs, j)[b], w[b], SeenBy(Merge(hs, id, w), j)[b]) {
      assert SeenBy(hs, j)[b] == Seen(hs[b], j) && SeenBy(hs, id)[b] == Seen(hs[b], id);
    }
  }

  /** `n` owns slots as `m` did and stack places as `w` does. */
  predicate Alike(m: Owner, w: Owner, n: Owner) {
    (m.Mine? <==> n.Mine?) && (m.Mine? ==> n == m) && (w.Free? <==> n.Free?) && (w.Free? ==> n == w)
  }

  lemma SameOwner(p: Pool, ch: Chan, m: seq<Owner>, w: seq<Owner>, n: seq<Owner>)
    requires |m| == |w| == |n| == BUFS && Shaped(ch)
    requires forall b :: 0 <= b < BUFS ==> Alike(m[b], w[b], n[b])
    requires PoolShaped(p) && FreeOwned(p, w) && SlotsOwned(ch, m)
    ensures Owns(p, ch, n)
  {
    hide At;
  }

  /** The same, for the whole invariant. */
  lemma StepSound(c: Conn, hs: seq<Holder>, id: u8, p: Pool, ch: Chan, w: seq<Owner>)
    requires Sound(c) && ConnShaped(c) && Holds(c, hs) && id in c.chans
    requires Owns(p, ch, w) && Tidy(ch) && Accounted(ch) && Aside(c.pool, SeenBy(hs, id), p, w)
    ensures Sound(With(c, id, p, ch))
  {
    hide Owns, Aside, Tidy, Accounted;
    StepHolds(c, hs, id, p, ch, w);
    hide Holds;
  }

  lemma OpenSound(c: Conn, id: u8, kind: nat, sender: bool, state: nat, next: u8)
    requires Sound(c) && ConnShaped(c) && id !in c.chans
    ensures Sound(With(c.(nextId := next), id, c.pool, NewChan(kind, sender, state, c.window)))
  {
    hide NewChan, Owns, Tidy, Accounted, PoolShaped, FreeOwned, Shaped;
    var hs :| Holds(c, hs);
    var ch := NewChan(kind, sender, state, c.window);
    StrangerView(c, hs, id);
    NewChanHolds(c.pool, kind, sender, state, c.window, SeenBy(hs, id));
    OpenHolds(c, hs, id, ch, next);
    hide Holds;
  }

  /** A channel not yet open owns nothing. */
  lemma StrangerView(c: Conn, hs: seq<Holder>, id: u8)
    requires Holds(c, hs) && id !in c.chans
    ensures FreeOwned(c.pool, SeenBy(hs, id)) && forall b :: 0 <= b < BUFS ==> !SeenBy(hs, id)[b].Mine?
  {
    hide Owns, PoolShaped;
  }

  lemma OpenHolds(c: Conn, hs: seq<Holder>, id: u8, ch: Chan, next: u8)
    requires ConnShaped(c) && Holds(c, hs) && id !in c.chans && Shaped(ch)
    requires Owns(c.pool, ch, SeenBy(hs, id))
    ensures Holds(With(c.(nextId := next), id, c.pool, ch), hs)
  {
    hide Owns, PoolShaped;
  }

  /** A step that leaves the slots and the byte count alone. */
  lemma RelabelSound(c: Conn, id: u8, ch: Chan)
    requires Sound(c) && ConnShaped(c) && id in c.chans
    requires ch == c.chans[id].(state := ch.state, sendWindow := ch.sendWindow, needAck := ch.needAck,
             needWindow := ch.needWindow)
    ensures Sound(With(c, id, c.pool, ch))
  {
    var hs :| Holds(c, hs);
    var w := SeenBy(hs, id);
    Relabel(c.pool, c.chans[id], w, ch);
    StepSound(c, hs, id, c.pool, ch, w);
  }

  lemma WriteSound(c: Conn, id: u8, data: Message)
    requires Sound(c) && ConnShaped(c)
    ensures Sound(WriteTo(c, id, data).0)
  {
    if id in c.chans {
      var hs :| Holds(c, hs);
      var w := SeenBy(hs, id);
      var (p, ch, res) := Write(c.pool, c.chans[id], Payload(c), data);
      var w' := WriteOwns(c.pool, c.chans[id], Payload(c), data, w);
      WriteAccounts(c.pool, c.chans[id], Payload(c), data);
      hide Write, Owns, Tidy, Aside, Accounted, Undisturbed;
      StepSound(c, hs, id, p, ch, w');
    }
  }

  lemma ReadSound(c: Conn, id: u8, room: nat)
    requires Sound(c) && ConnShaped(c)
    ensures Sound(ReadFrom(c, id, room).0)
  {
    if id in c.chans {
      var hs :| Holds(c, hs);
      var w := SeenBy(hs, id);
      var (p, ch, m) := Read(c.pool, c.chans[id], room);
      var w' := ReadOwns(c.pool, c.chans[id], room, w);
      assert Accounted(ch);
      hide Read, Owns, Tidy, Aside, Accounted, Undisturbed;
      StepSound(c, hs, id, p, ch, w');
    }
  }

  lemma DataSound(c: Conn, id: u8, num: u16, idx: u8, total: u8, data: Message)
    requires Sound(c) && ConnShaped(c)
    ensures Sound(Hear(c, DataFrame(id, num, idx, total, data)))
  {
    if id in c.chans && !c.chans[id].sender {
      var hs :| Holds(c, hs);
      var w := SeenBy(hs, id);
      var (p, ch) := Data(c.pool, c.chans[id], Payload(c), num, idx, total, data);
      hide Data;
      var w' := DataOwns(c.pool, c.chans[id], Payload(c), num, idx, total, data, w);
      assert Accounted(ch);
      hide Owns, Tidy, Aside, Accounted, Undisturbed;
      StepSound(c, hs, id, p, ch, w');
    }
  }

  lemma AckSound(c: Conn, id: u8, num: u16)
    requires Sound(c) && ConnShaped(c)
    ensures Sound(Hear(c, AckFrame(id, num)))
  {
    if id in c.chans && c.chans[id].sender {
      var hs :| Holds(c, hs);
      var w := SeenBy(hs, id);
      var (p, ch) := Ack(c.pool, c.chans[id], num);
      var w' := AckOwns(c.pool, c.chans[id], num, w);
      AckFromAccounts(c.pool, c.chans[id], num, 0);
      assert Accounted(ch);
      hide Ack, Owns, Tidy, Aside, Accounted, Undisturbed;
      StepSound(c, hs, id, p, ch, w');
    }
  }

  lemma HearSound(c: Conn, f: Frame)
    requires Sound(c) && ConnShaped(c)
    ensures Sound(Hear(c, f))
  {
    hide Sound, Tidy, Accounted, Data, Ack;
    match f
    case DataFrame(id, num, idx, total, data) => DataSound(c, id, num, idx, total, data);
    case AckFrame(id, num) => AckSound(c, id, num);
    case WindowFrame(id, window) =>
      if id in c.chans && c.chans[id].sender {
        var ch := c.chans[id];
        RelabelSound(c, id, ch.(sendWindow := window, state := if ch.state == 0 then 1 else ch.state));
      }
    case OpenFrame(id, kind, theySend) =>
      if id !in c.chans && |c.chans| < MAX_CHAN {
        OpenSound(c, id, kind, !theySend, 1, c.nextId);
        assert c.(nextId := c.nextId) == c;
      }
    case CloseFrame(id) =>
      if id in c.chans { RelabelSound(c, id, c.chans[id].(state := 3)); }
  }

  lemma {:induction false} FlushSound(c: Conn, i: nat, pos: nat, mtu: nat)
    requires Sound(c) && ConnShaped(c)
    ensures Sound(FlushFrom(c, i, pos, mtu).0)
    decreases 256 - i
  {
    hide Sound;
    if i >= 256 || pos + 6 > mtu {
    } else if i !in c.chans {
      FlushSound(c, i + 1, pos, mtu);
    } else {
      var (c1, pos1, fs1) := FlushAck(c.chans[i], i, pos, mtu);
      var (c2, pos2, fs2) := FlushWindow(c1, i, pos1, mtu);
      RelabelSound(c, i, c2);
      FlushSound(With(c, i, c.pool, c2), i + 1, pos2, mtu);
    }
  }

  lemma TransmitSound(c: Conn, id: u8, j: nat, now: u32)
    requires Sound(c) && ConnShaped(c) && id in c.chans && j < SLOTS && c.chans[id].out[j].active
    ensures var (p, ch) := Transmit(c.pool, c.chans[id], j, now); Sound(With(c, id, p, ch))
  {
    var hs :| Holds(c, hs);
    var (p, ch) := Transmit(c.pool, c.chans[id], j, now);
    var w' := TransmitOwns(c.pool, c.chans[id], j, now, SeenBy(hs, id));
    TransmitAccounts(c.pool, c.chans[id], j, now);
    hide Transmit, Owns, Tidy, Aside, Accounted, Undisturbed;
    StepSound(c, hs, id, p, ch, w');
  }

  lemma {:induction false} DataFromSound(c: Conn, i: nat, pos: nat, mtu: nat, now: u32)
    requires Sound(c) && ConnShaped(c)
    ensures Sound(DataFrom(c, i, pos, mtu, now).0)
    decreases 256 - i
  {
    hide Sound, Transmit, PieceLen, FrameOf;
    if i >= 256 || pos + 9 > mtu {
    } else if i !in c.chans || !c.chans[i].sender || c.chans[i].state != 1 {
      DataFromSound(c, i + 1, pos, mtu, now);
    } else {
      var ch := c.chans[i];
      var j := NextSendable(ch, ch.outHead);
      if j == SLOTS {
        DataFromSound(c, i + 1, pos, mtu, now);
      } else {
        var n := PieceLen(ch.out[j], Payload(c));
        if pos + 8 + n <= mtu {
          var (p, ch1) := Transmit(c.pool, ch, j, now);
          TransmitSound(c, i, j, now);
          DataFromSound(With(c, i, p, ch1), i + 1, pos + 8 + n, mtu, now);
        }
      }
    }
  }

  lemma RetransmitSound(c: Conn, i: u8, now: u32)
    requires Sound(c) && ConnShaped(c) && i in c.chans
    ensures Sound(With(c, i, c.pool, Retransmit(c.chans[i], c.rt, now, 0)))
  {
    hide Retransmit, Owns, Aside, PoolShaped;
    var hs :| Holds(c, hs);
    var w := SeenBy(hs, i);
    var ch := Retransmit(c.chans[i], c.rt, now, 0);
    RetransmitOwns(c.pool, c.chans[i], c.rt, now, 0, w);
    RetransmitAccounts(c.chans[i], c.rt, now, 0);
    hide Tidy, Accounted;
    AsideSelf(c.pool, w);
    StepSound(c, hs, i, c.pool, ch, w);
  }

  lemma AsideSelf(p: Pool, w: seq<Owner>)
    requires PoolShaped(p) && |w| == BUFS
    ensures Aside(p, w, p, w)
  {}

  lemma {:induction false} ServiceSound(c: Conn, i: nat, now: u32)
    requires Sound(c) && ConnShaped(c)
    ensures Sound(ServiceFrom(c, i, now))
    decreases 256 - i
  {
    hide Sound;
    if i >= 256 {
    } else if i !in c.chans || !c.chans[i].sender || c.chans[i].kind != RELIABLE {
      ServiceSound(c, i + 1, now);
    } else {
      RetransmitSound(c, i, now);
      ServiceSound(With(c, i, c.pool, Retransmit(c.chans[i], c.rt, now, 0)), i + 1, now);
    }
  }

  lemma DoSound(c: Conn, call: Call)
    requires Sound(c) && ConnShaped(c)
    ensures Sound(Do(c, call).0)
  {
    hide Sound;
    match call
    case Open(kind, send) =>
      var id := c.nextId;
      if id !in c.chans {
        var next := if id >= 254 then id - 254 else id + 2;
        NextIdSound(c, next);
        if |c.chans| < MAX_CHAN { OpenSound(c, id, kind, send, if send then 0 else 1, next); }
      }
    case Close(id) =>
      if id in c.chans && c.chans[id].state < 2 { RelabelSound(c, id, c.chans[id].(state := 2)); }
    case WriteCall(id, data) => WriteSound(c, id, data);
    case ReadCall(id, room) => ReadSound(c, id, room);
    case Feed(frame) => HearSound(c, frame);
    case Send(pos, room, now) =>
      FlushSound(c, 0, pos, room);
      var (c1, pos1, fs1) := FlushFrom(c, 0, pos, room);
      DataFromSound(c1, 0, pos1, room, now);
    case Service(now) => ServiceSound(c, 0, now);
  }

  lemma NextIdSound(c: Conn, next: u8)
    requires Sound(c)
    ensures Sound(c.(nextId := next))
  {
    var hs :| Holds(c, hs);
    assert Holds(c.(nextId := next), hs);
  }

  lemma NewConnSound(mtu: nat, window: u32, rt: nat, server: bool)
    requires mtu > OVERHEAD
    ensures Sound(NewConn(mtu, window, rt, server)) && ConnShaped(NewConn(mtu, window, rt, server))
  {
    var hs := seq(BUFS, b => OnStack(if b >= 0 then b else 0));
    assert Holds(NewConn(mtu, window, rt, server), hs);
  }

  lemma {:induction false} RunSound(c: Conn, calls: seq<Call>)
    requires Sound(c) && ConnShaped(c)
    ensures Sound(Run(c, calls))
  {
    if calls != [] {
      RunSound(c, calls[..|calls| - 1]);
      DoSound(Run(c, calls[..|calls| - 1]), calls[|calls| - 1]);
    }
  }

  // ----- what conservation means -----

  ghost predicate OnFree(c: Conn, b: int) { exists k :: 0 <= k < |c.pool.free| && c.pool.free[k] == b }

  ghost predicate InUse(c: Conn, b: int)
    requires ConnShaped(c)
  {
    exists id, pl :: id in c.chans && At(c.chans[id], pl) == b
  }

  /** Each buffer is on the free stack or in a slot, not both, and in no two places. */
  ghost predicate ExactlyOnce(c: Conn)
    requires ConnShaped(c)
  {
    && (forall b :: 0 <= b < BUFS ==> (OnFree(c, b) <==> !InUse(c, b)))
    && (forall j, k :: 0 <= j < k < |c.pool.free| ==> c.pool.free[j] != c.pool.free[k])
    && (forall id, pl, id', pl' :: id in c.chans && id' in c.chans
                                   && At(c.chans[id], pl) == At(c.chans[id'], pl') != NOBUF
          ==> id == id' && pl == pl')
    && |c.pool.free| <= BUFS
  }

  lemma SoundMeans(c: Conn)
    requires Sound(c) && ConnShaped(c)
    ensures ExactlyOnce(c)
  {
    var hs :| Holds(c, hs);
    forall b | 0 <= b < BUFS ensures OnFree(c, b) <==> !InUse(c, b) {
      HolderIs(c, hs, b);
    }
    forall id, pl, id', pl' | id in c.chans && id' in c.chans && At(c.chans[id], pl) == At(c.chans[id'], pl') != NOBUF
      ensures id == id' && pl == pl'
    {
      InSlotIs(c, hs, id, pl);
      InSlotIs(c, hs, id', pl');
    }
    hide At, Owns, Tidy;
    assert forall j, k :: 0 <= j < k < |c.pool.free| ==> hs[c.pool.free[j]] != hs[c.pool.free[k]];
    Pigeonhole(c.pool.free, BUFS);
  }

  lemma InSlotIs(c: Conn, hs: seq<Holder>, id: u8, pl: Place)
    requires ConnShaped(c) && Holds(c, hs) && id in c.chans && At(c.chans[id], pl) != NOBUF
    ensures 0 <= At(c.chans[id], pl) < BUFS && hs[At(c.chans[id], pl)] == InSlot(id, pl)
  {
    var b := At(c.chans[id], pl);
    assert Owns(c.pool, c.chans[id], SeenBy(hs, id));
    assert SeenBy(hs, id)[b] == Mine(pl);
    assert Seen(hs[b], id) == Mine(pl);
  }

  lemma HolderIs(c: Conn, hs: seq<Holder>, b: int)
    requires ConnShaped(c) && Holds(c, hs) && 0 <= b < BUFS
    ensures OnFree(c, b) <==> !InUse(c, b)
  {
    match hs[b]
    case OnStack(k) =>
      assert c.pool.free[k] == b;
      if InUse(c, b) {
        var id, pl :| id in c.chans && At(c.chans[id], pl) == b;
        InSlotIs(c, hs, id, pl);
        assert false;
      }
    case InSlot(id, pl) =>
      assert Owns(c.pool, c.chans[id], SeenBy(hs, id));
      assert SeenBy(hs, id)[b] == Mine(pl);
      assert At(c.chans[id], pl) == b;
      assert InUse(c, b);
  }

  // ----- frames that complete a message longer than its buffer -----

  /** The frame does not complete such a message; fields of the frame and the slot it goes to
      decide this before anything is moved. */
  predicate FrameContained(c: Conn, f: Frame)
    requires ConnShaped(c)
  {
    f.DataFrame? && f.id in c.chans && !c.chans[f.id].sender && f.total > 1 ==>
      Contained(c.pool, c.chans[f.id], Payload(c), f.num, f.idx, f.total, f.data)
  }

  predicate AllContained(c: Conn, calls: seq<Call>)
    requires ConnShaped(c)
  {
    calls == [] ||
      (var k, call := Run(c, calls[..|calls| - 1]), calls[|calls| - 1];
       AllContained(c, calls[..|calls| - 1]) && (call.Feed? ==> FrameContained(k, call.frame)))
  }

  lemma {:induction false} DeliverMarks(p: Pool, ch: Chan)
    requires Shaped(ch)
    ensures Deliver(p, ch).0.overrun == p.overrun
    decreases Waiting(ch.reorder)
  {
    if Awaited(ch) {
      var (p1, c1) := DeliverOne(p, ch);
      assert p1.overrun == p.overrun;
      WaitingClears(ch.reorder, ch.recvSeq % SLOTS, c1.reorder[ch.recvSeq % SLOTS]);
      hide DeliverOne;
      DeliverMarks(p1, c1);
    }
  }

  lemma ArriveMarks(p: Pool, ch: Chan, num: u16, data: Message)
    requires Shaped(ch)
    ensures Arrive(p, ch, num, data).0.overrun == p.overrun
  {
    if num == ch.recvSeq {
      var (p1, c1) := Accept(p, ch, data);
      assert p1.overrun == p.overrun;
      hide Accept;
      DeliverMarks(p1, c1);
    }
  }

  lemma HandOnMarks(p: Pool, ch: Chan, num: u16, data: Message)
    requires Shaped(ch)
    ensures HandOn(p, ch, num, data).0.overrun == p.overrun
  {
    ArriveMarks(p, ch, num, data);
    hide Arrive;
  }

  lemma DoneMarks(p: Pool, ch: Chan, fp: nat, i: nat)
    requires Shaped(ch) && i < FRAG_SLOTS
    ensures FragDone(p, ch, fp, i).0.overrun == (p.overrun || !Inside(ch.frags[i]))
  {
    hide Inside, HandOn, Compact;
    var f := ch.frags[i];
    var (s, n) := Compact(Buffer(p, f.buf), fp, f.offsets, f.total, 0, 0);
    HandOnMarks(Copy(p, f.buf, 0, s).(overrun := p.overrun || !Inside(f)), ch, f.num, Part(s, 0, n));
  }

  lemma FragmentMarks(p: Pool, ch: Chan, fp: nat, num: u16, idx: nat, total: nat, data: Message)
    requires Shaped(ch)
    ensures Fragment(p, ch, fp, num, idx, total, data).0.overrun
         == (p.overrun || !Contained(p, ch, fp, num, idx, total, data))
  {
    var (p1, c1, i) := FragSlot(p, ch, num, total);
    assert p1.overrun == p.overrun;
    hide FragSlot, Inside, FragDone, FragWrite, Fresh, Offset;
    if i < FRAG_SLOTS && Fresh(c1.frags[i], idx, |data|, fp) {
      var f := FragWrite(c1.frags[i], idx, |data|);
      DoneMarks(Copy(p1, f.buf, Offset(idx, fp), data), c1.(frags := c1.frags[i := f]), fp, i);
    }
  }

  lemma DataMarks(p: Pool, ch: Chan, fp: nat, num: u16, idx: nat, total: nat, data: Message)
    requires Shaped(ch)
    ensures Data(p, ch, fp, num, idx, total, data).0.overrun
         == (p.overrun || (total > 1 && !Contained(p, ch, fp, num, idx, total, data)))
  {
    hide Fragment, Arrive, Contained;
    ArriveMarks(p, ch, num, data);
    FragmentMarks(p, ch, fp, num, idx, total, data);
  }

  lemma {:induction false} AckMarks(p: Pool, ch: Chan, a: u16, i: nat)
    requires Shaped(ch) && i <= SLOTS
    ensures AckFrom(p, ch, a, i).0.overrun == p.overrun
    decreases SLOTS - i
  {
    if i < SLOTS {
      if Acked(ch.out[i], a) {
        var (p1, c1) := Release(p, ch, i);
        AckMarks(p1, c1.(inFlight := Wrap32(ch.inFlight - ch.out[i].len)), a, i + 1);
      } else {
        AckMarks(p, ch, a, i + 1);
      }
    }
  }

  lemma {:induction false} FlushMarks(c: Conn, i: nat, pos: nat, mtu: nat)
    requires ConnShaped(c)
    ensures FlushFrom(c, i, pos, mtu).0.pool == c.pool
    decreases 256 - i
  {
    hide Shaped, FlushAck, FlushWindow;
    if i >= 256 || pos + 6 > mtu {
    } else if i !in c.chans {
      FlushMarks(c, i + 1, pos, mtu);
    } else {
      var (c1, pos1, fs1) := FlushAck(c.chans[i], i, pos, mtu);
      var (c2, pos2, fs2) := FlushWindow(c1, i, pos1, mtu);
      FlushMarks(With(c, i, c.pool, c2), i + 1, pos2, mtu);
    }
  }

  lemma {:induction false} SendMarks(c: Conn, i: nat, pos: nat, mtu: nat, now: u32)
    requires ConnShaped(c)
    ensures DataFrom(c, i, pos, mtu, now).0.pool.overrun == c.pool.overrun
    decreases 256 - i
  {
    hide PieceLen, FrameOf, NextSendable;
    if i >= 256 || pos + 9 > mtu {
    } else if i !in c.chans || !c.chans[i].sender || c.chans[i].state != 1 {
      SendMarks(c, i + 1, pos, mtu, now);
    } else {
      var ch := c.chans[i];
      var j := NextSendable(ch, ch.outHead);
      if j == SLOTS {
        SendMarks(c, i + 1, pos, mtu, now);
      } else {
        var n := PieceLen(ch.out[j], Payload(c));
        if pos + 8 + n <= mtu {
          var (p, ch1) := Transmit(c.pool, ch, j, now);
          TransmitMarks(c.pool, ch, j, now);
          hide Transmit;
          SendMarks(With(c, i, p, ch1), i + 1, pos + 8 + n, mtu, now);
        }
      }
    }
  }

  lemma TransmitMarks(p: Pool, ch: Chan, j: nat, now: u32)
    requires Shaped(ch) && j < SLOTS
    ensures Transmit(p, ch, j, now).0.overrun == p.overrun
  {}

  lemma {:induction false} ServiceMarks(c: Conn, i: nat, now: u32)
    requires ConnShaped(c)
    ensures ServiceFrom(c, i, now).pool == c.pool
    decreases 256 - i
  {
    hide Shaped, Retransmit;
    if i >= 256 {
    } else if i !in c.chans || !c.chans[i].sender || c.chans[i].kind != RELIABLE {
      ServiceMarks(c, i + 1, now);
    } else {
      ServiceMarks(With(c, i, c.pool, Retransmit(c.chans[i], c.rt, now, 0)), i + 1, now);
    }
  }

  /** Only a frame that is not contained writes past a buffer, and every such frame does. */
  lemma DoMarks(c: Conn, call: Call)
    requires ConnShaped(c)
    ensures Do(c, call).0.pool.overrun == (c.pool.overrun || (call.Feed? && !FrameContained(c, call.frame)))
  {
    hide Shaped, Data, AckFrom, Contained, NewChan, FlushFrom, DataFrom, ServiceFrom;
    match call
    case Feed(f) =>
      if f.DataFrame? && f.id in c.chans {
        DataMarks(c.pool, c.chans[f.id], Payload(c), f.num, f.idx, f.total, f.data);
      } else if f.AckFrame? && f.id in c.chans {
        AckMarks(c.pool, c.chans[f.id], f.num, 0);
      }
    case Send(pos, room, now) =>
      FlushMarks(c, 0, pos, room);
      var (c1, pos1, _) := FlushFrom(c, 0, pos, room);
      SendMarks(c1, 0, pos1, room, now);
    case Service(now) => ServiceMarks(c, 0, now);
    case WriteCall(id, data) => if id in c.chans { WriteMarks(c.pool, c.chans[id], Payload(c), data); }
    case _ =>
  }

  lemma WriteMarks(p: Pool, ch: Chan, fp: nat, data: Message)
    requires Shaped(ch) && fp > 0
    ensures Write(p, ch, fp, data).0.overrun == p.overrun
  {
    hide Pieces, Next16, Wrap32;
  }

  lemma {:induction false} RunMarks(c: Conn, calls: seq<Call>)
    requires ConnShaped(c) && !c.pool.overrun
    ensures !Run(c, calls).pool.overrun <==> AllContained(c, calls)
  {
    if calls != [] {
      RunMarks(c, calls[..|calls| - 1]);
      DoMarks(Run(c, calls[..|calls| - 1]), calls[|calls| - 1]);
      hide Do, FrameContained;
    }
  }

  /** After any calls and frames, as long as no frame completes a message longer than its
      buffer: no byte was written outside a buffer, each buffer has exactly one holder, the
      active outgoing slots are inside the ring, and the byte count of a reliable channel
      is right. The condition is exact for the first of these. */
  lemma PoolConserved(mtu: nat, window: u32, rt: nat, server: bool, calls: seq<Call>)
    requires mtu > OVERHEAD
    ensures ConnShaped(NewConn(mtu, window, rt, server))
    ensures var c := Run(NewConn(mtu, window, rt, server), calls);
      && (!c.pool.overrun <==> AllContained(NewConn(mtu, window, rt, server), calls))
      && (!c.pool.overrun ==>
            && ExactlyOnce(c)
            && (forall id, i :: id in c.chans && 0 <= i < SLOTS && c.chans[id].out[i].active ==>
                  InRing(i, c.chans[id].outHead, c.chans[id].outTail))
            && (forall id :: id in c.chans && c.chans[id].kind == RELIABLE ==>
                  c.chans[id].inFlight == Total(c.chans[id].out)))
  {
    var c0 := NewConn(mtu, window, rt, server);
    NewConnSound(mtu, window, rt, server);
    RunSound(c0, calls);
    RunMarks(c0, calls);
    hide Run, AllContained;
    SoundMeans(Run(c0, calls));
  }
}
