/** The timers of netchan-ipx: a handshake that lost packets is completed when its timer runs
    out, an idle connection is kept alive, and a dead one is given up. */
module IpxHandshake {
  import opened Bytes
  import opened IpxWire
  import opened IpxEndpoint
  import opened IpxSystem
  import opened IpxRecovery

  // ----- the three packets -----

  lemma SynHeard(c: Endpoint, v: Endpoint)
    requires Shape(c) && Shape(v) && c.sendSyn && !c.sendSynack && !c.sendAck && v.isServer
    ensures var (c', p) := SendNext(c, NC_MTU);
            var v' := Feed(v, p).0;
      && p != [] && c' == c.(sendSyn := false, lastSend := c.now)
      && v' == (if v.state == Closed then
                  v.(state := Connecting, remoteId := c.localId, sendSynack := true, lastRecv := v'.lastRecv,
                     connectTimer := v'.connectTimer, connectAttempts := v'.connectAttempts)
                else v.(sendSynack := v.sendSynack || v.state == Connecting, lastRecv := v'.lastRecv))
  {
    hide SameLayout, SendData, HasData, Header, Wr32;
    var p := Header(0, PKT_SYN, 0) + Wr32(c.localId);
    assert p[NC_HDR..] == Wr32(c.localId) && PacketType(p) == PKT_SYN;
  }

  lemma SynackHeard(v: Endpoint, c: Endpoint)
    requires Shape(c) && Shape(v) && v.sendSynack && v.remoteId == c.localId && !c.isServer && c.state != Closed
    ensures var (v', p) := SendNext(v, NC_MTU);
            var c' := Feed(c, p).0;
      && p != [] && v' == v.(sendSynack := false, lastSend := v.now)
      && c' == c.(state := Connected, remoteId := v.localId, sendAck := true, lastRecv := c'.lastRecv)
  {
    hide SameLayout, SendData, HasData, Header, Wr32;
    var p := Header(v.remoteId, PKT_SYNACK, 0) + Wr32(v.localId);
    assert p[NC_HDR..] == Wr32(v.localId) && PacketType(p) == PKT_SYNACK && PacketId(p) == v.remoteId;
  }

  lemma AckHeard(c: Endpoint, v: Endpoint)
    requires Shape(c) && Shape(v) && c.sendAck && !c.sendSynack && v.isServer
    ensures var (c', p) := SendNext(c, NC_MTU);
            var v' := Feed(v, p).0;
      && p != [] && c' == c.(sendAck := false, lastSend := c.now)
      && v' == v.(state := if c.remoteId == v.localId && v.state == Connecting then Connected else v.state,
                  lastRecv := v'.lastRecv)
  {
    hide SameLayout, SendData, HasData, Header;
    var p := Header(c.remoteId, PKT_ACK, 0);
    assert PacketType(p) == PKT_ACK && PacketId(p) == c.remoteId;
  }

  /** The bytes of a SYN: type 1, and the sender's id, most significant byte first. */
  lemma SynBytes(c: Endpoint)
    requires Shape(c) && c.sendSyn && !c.sendSynack && !c.sendAck
    ensures var p := SendNext(c, NC_MTU).1;
      && |p| == 12 && p[..8] == [0, 0, 0, 0, 1, 0, 0, 0]
      && c.localId == (p[8] as int) * 0x100_0000 + (p[9] as int) * 0x1_0000 + (p[10] as int) * 0x100 + p[11]
  {
    hide SameLayout, SendData, HasData;
    assert Wr32(0) == [0, 0, 0, 0] && Wr16(0) == [0, 0];
  }

  // ----- what no packet changes -----

  /** What a packet leaves alone. */
  predicate Aside(e: Endpoint, e1: Endpoint) {
    && e1.localId == e.localId && e1.isServer == e.isServer && (e.sendAck ==> e1.sendAck)
    && e1.now == e.now && e1.lastRecv == e.lastRecv
  }

  lemma FeedLocal(e: Endpoint, p: seq<u8>)
    requires Shape(e)
    ensures var e' := Feed(e, p).0;
      && e'.localId == e.localId && e'.isServer == e.isServer && (e.sendAck ==> e'.sendAck) && e'.now == e.now
      && (|p| >= NC_HDR ==> e'.lastRecv == e.now)
  {
    hide FeedData, FeedControl, SameLayout;
    if |p| >= NC_HDR {
      DataLocal(e.(lastRecv := e.now), p);
      ControlLocal(e.(lastRecv := e.now), p);
    }
  }

  lemma DataLocal(e: Endpoint, p: seq<u8>)
    requires Shape(e) && |p| >= NC_HDR
    ensures Aside(e, FeedData(e, p).0)
  {
    hide DeliverAll, ProcessAck, ParseRecords, SameLayout, Shape;
  }

  lemma ControlLocal(e: Endpoint, p: seq<u8>)
    requires Shape(e) && |p| >= NC_HDR
    ensures Aside(e, FeedControl(e, p).0)
  {
    hide FeedControl, Aside;
    if PacketType(p) == PKT_SYN {
      SynLocal(e, p);
    } else if PacketType(p) == PKT_SYNACK {
      SynackLocal(e, p);
    } else {
      OtherLocal(e, p);
    }
  }

  lemma SynLocal(e: Endpoint, p: seq<u8>)
    requires Shape(e) && |p| >= NC_HDR && PacketType(p) == PKT_SYN
    ensures Aside(e, FeedControl(e, p).0)
  {
    hide SameLayout, AtMostRewinds, Add32, Rd32, Shape;
  }

  lemma SynackLocal(e: Endpoint, p: seq<u8>)
    requires Shape(e) && |p| >= NC_HDR && PacketType(p) == PKT_SYNACK
    ensures Aside(e, FeedControl(e, p).0)
  {
    hide SameLayout, AtMostRewinds, Rd32, Shape;
  }

  lemma OtherLocal(e: Endpoint, p: seq<u8>)
    requires Shape(e) && |p| >= NC_HDR && PacketType(p) != PKT_SYN && PacketType(p) != PKT_SYNACK
    ensures Aside(e, FeedControl(e, p).0)
  {
    hide SameLayout, AtMostRewinds, Shape;
  }

  lemma SendLocal(e: Endpoint, buflen: nat)
    requires Shape(e)
    ensures SendNext(e, buflen).0.localId == e.localId && SendNext(e, buflen).0.isServer == e.isServer
  {
    hide RelToSend, UnrelToSend, SameLayout, DataPacket, UnrelRecords;
  }

  /** Sending leaves the sender's state as it is, and no genuine packet ends a connection. */
  predicate Lasts(tx: Half, rx: Half, tx1: Half, rx1: Half) {
    && Wf(tx1) && Wf(rx1) && Ids(tx1, rx1) && tx1.ep.state == tx.ep.state
    && tx1.ep.localId == tx.ep.localId && rx1.ep.localId == rx.ep.localId && (rx.ep.sendAck ==> rx1.ep.sendAck)
    && tx1.ep.isServer == tx.ep.isServer && rx1.ep.isServer == rx.ep.isServer
    && (rx.ep.state == Connected ==> rx1.ep.state == Connected)
  }

  lemma {:induction false} DrainLasts(tx: Half, rx: Half)
    requires Wf(tx) && Wf(rx) && Ids(tx, rx)
    ensures var (tx1, rx1) := Drain(tx, rx); Lasts(tx, rx, tx1, rx1)
    decreases Backlog(tx.ep)
  {
    hide Identified, Step, SendNext, Backlog;
    if SendNext(tx.ep, NC_MTU).1 != [] {
      PassLasts(tx, rx);
      SendShrinks(tx.ep);
      StepOfSend(tx);
      DrainLasts(Step(tx, Send(NC_MTU)), Step(rx, Op.Deliver(Emitted(tx, NC_MTU))));
    }
  }

  lemma PassLasts(tx: Half, rx: Half)
    requires Wf(tx) && Wf(rx) && Ids(tx, rx) && SendNext(tx.ep, NC_MTU).1 != []
    ensures Lasts(tx, rx, Step(tx, Send(NC_MTU)), Step(rx, Op.Deliver(Emitted(tx, NC_MTU))))
    ensures var rx1 := Step(rx, Op.Deliver(Emitted(tx, NC_MTU))); rx1.ep.lastRecv == rx1.ep.now == rx.ep.now
  {
    SendIds(tx, rx, NC_MTU);
    SendLocal(tx.ep, NC_MTU);
    var tx1, d := Step(tx, Send(NC_MTU)), Emitted(tx, NC_MTU);
    assert d in tx1.net;
    hide Identified, SendNext, Feed;
    FeedIds(rx, tx1, d);
    FeedLocal(rx.ep, d.bytes);
  }

  /** One packet goes over, and then the rest. */
  lemma DrainOne(tx: Half, rx: Half)
    requires Wf(tx) && Wf(rx) && Ids(tx, rx) && SendNext(tx.ep, NC_MTU).1 != []
    ensures var tx1, rx1 := Step(tx, Send(NC_MTU)), Step(rx, Op.Deliver(Emitted(tx, NC_MTU)));
      && Lasts(tx, rx, tx1, rx1) && Drain(tx, rx) == Drain(tx1, rx1)
      && tx1.ep == SendNext(tx.ep, NC_MTU).0 && rx1.ep == Feed(rx.ep, SendNext(tx.ep, NC_MTU).1).0
  {
    hide Lasts, SendNext, Feed;
    PassLasts(tx, rx);
  }

  // ----- the rounds -----

  /** The server's state once an acknowledgement the client still had to send has come. */
  function Acked(c: Endpoint, v: Endpoint): ConnState {
    if c.sendAck && c.remoteId == v.localId && v.state == Connecting then Connected else v.state
  }

  /** What a connecting client has to send: an acknowledgement left over, and SYN. */
  lemma ClientDrains(c: Half, v: Half)
    requires Wf(c) && Wf(v) && Ids(c, v) && !c.ep.isServer && c.ep.state == Connecting && c.ep.sendSyn
    ensures var (c1, v1) := Drain(c, v);
      && Lasts(c, v, c1, v1)
      && v1.ep.state == (if Acked(c.ep, v.ep) == Closed then Connecting else Acked(c.ep, v.ep))
      && v1.ep.sendSynack == (v.ep.sendSynack || Acked(c.ep, v.ep) != Connected)
  {
    hide SendNext, Feed, Step, Drain, HandshakeOk;
    DrainLasts(c, v);
    var c1, v1 := c, v;
    if c.ep.sendAck {
      AckHeard(c.ep, v.ep);
      DrainOne(c, v);
      c1, v1 := Step(c, Send(NC_MTU)), Step(v, Op.Deliver(Emitted(c, NC_MTU)));
    }
    SynHeard(c1.ep, v1.ep);
    DrainOne(c1, v1);
    NothingMore(Step(c1, Send(NC_MTU)), Step(v1, Op.Deliver(Emitted(c1, NC_MTU))));
  }

  lemma NothingMore(tx: Half, rx: Half)
    requires Wf(tx) && Wf(rx) && !HasControl(tx.ep) && tx.ep.state != Connected
    ensures Drain(tx, rx) == (tx, rx)
  {}

  /** DATA does not reach a client that is still connecting. */
  lemma {:induction false} DataIgnored(v: Half, c: Half)
    requires Wf(v) && Wf(c) && Ids(v, c) && v.ep.isServer && !HasControl(v.ep) && c.ep.state == Connecting
    ensures Drain(v, c).1.ep.state == Connecting
    decreases Backlog(v.ep)
  {
    hide Identified, Step, SendNext, Backlog, Drain, Lasts;
    Roles(v, c);
    if SendNext(v.ep, NC_MTU).1 == [] {
      Empty(v, c);
    } else {
      DrainOne(v, c);
      SendShrinks(v.ep);
      DataUnheard(v.ep, c.ep);
      var v1, c1 := Step(v, Send(NC_MTU)), Step(c, Op.Deliver(Emitted(v, NC_MTU)));
      LastsIds(v, c, v1, c1);
      DataIgnored(v1, c1);
    }
  }

  lemma LastsIds(tx: Half, rx: Half, tx1: Half, rx1: Half)
    requires Lasts(tx, rx, tx1, rx1)
    ensures Wf(tx1) && Wf(rx1) && Ids(tx1, rx1)
  {}

  lemma Roles(a: Half, b: Half)
    requires Ids(a, b)
    ensures a.ep.isServer != b.ep.isServer
  {}

  lemma Empty(tx: Half, rx: Half)
    requires Wf(tx) && Wf(rx) && SendNext(tx.ep, NC_MTU).1 == []
    ensures Drain(tx, rx) == (tx, rx)
  {}

  lemma DataUnheard(v: Endpoint, c: Endpoint)
    requires Shape(v) && Shape(c) && !HasControl(v) && SendNext(v, NC_MTU).1 != []
    requires !c.isServer && c.state == Connecting
    ensures var (v', p) := SendNext(v, NC_MTU);
      !HasControl(v') && v'.isServer == v.isServer && Feed(c, p).0.state == Connecting
  {
    hide SameLayout, PackRel, PackUnrel, EncodeRecords, DataPacket, ParseRecords, ProcessAck, DeliverAll;
    DataIsData(v, NC_MTU);
  }

  /** A server that is up or coming up connects a connecting client exactly when it has a
      SYNACK to send. */
  lemma ServerDrains(v: Half, c: Half)
    requires Wf(v) && Wf(c) && Ids(v, c) && v.ep.isServer && v.ep.state != Closed && c.ep.state == Connecting
    ensures var (v1, c1) := Drain(v, c);
      && Lasts(v, c, v1, c1) && c1.ep.state == (if v.ep.sendSynack then Connected else Connecting)
      && (v.ep.sendSynack ==> c1.ep.sendAck)
  {
    hide SendNext, Feed, Step, Drain, HandshakeOk;
    DrainLasts(v, c);
    if v.ep.sendSynack {
      SynackHeard(v.ep, c.ep);
      DrainOne(v, c);
      DrainLasts(Step(v, Send(NC_MTU)), Step(c, Op.Deliver(Emitted(v, NC_MTU))));
    } else {
      DataIgnored(v, c);
    }
  }

  /** The acknowledgement of a connected client brings the server up. */
  lemma AckDrains(c: Half, v: Half)
    requires Wf(c) && Wf(v) && Ids(c, v) && !c.ep.isServer && c.ep.state == Connected && v.ep.state != Closed
    requires c.ep.sendAck
    ensures var (c1, v1) := Drain(c, v); c1.ep.state == v1.ep.state == Connected
  {
    hide SendNext, Feed, Step, Drain, HandshakeOk;
    DrainLasts(c, v);
    AckHeard(c.ep, v.ep);
    DrainOne(c, v);
    DrainLasts(Step(c, Send(NC_MTU)), Step(v, Op.Deliver(Emitted(c, NC_MTU))));
  }

  /** The handshake timer has run out, and not for the last time. */
  predicate RetryDue(e: Endpoint, now: u32) {
    e.state == Connecting && e.connectTimer <= now && e.connectAttempts < CONNECT_RETRIES
  }

  lemma RetryArms(me: Half, peer: Half, now: u32)
    requires Wf(me) && Wf(peer) && Ids(me, peer) && RetryDue(me.ep, now)
    ensures var me1 := Step(me, Service(now));
      && Ids(me1, peer) && me1.ep.state == Connecting && me1.ep.isServer == me.ep.isServer
      && me1.ep.localId == me.ep.localId && me1.ep.remoteId == me.ep.remoteId && me1.ep.sendAck == me.ep.sendAck
      && (if me.ep.isServer then me1.ep.sendSynack else me1.ep.sendSyn)
  {
    ServiceIds(me, peer, now);
    hide Identified, SameLayout, AtMostRewinds;
  }

  /** Both ends after a client's timeout, when everything then sent is delivered: client to
      server, server to client, client to server. */
  function ClientRound(c: Half, v: Half, now: u32): (r: (Half, Half))
    requires Wf(c) && Wf(v)
    ensures Wf(r.0) && Wf(r.1)
  {
    var (c1, v1) := Drain(Step(c, Service(now)), v);
    var (v2, c2) := Drain(v1, c1);
    Drain(c2, v2)
  }

  /** The same after a server's timeout: server to client, client to server. */
  function ServerRound(c: Half, v: Half, now: u32): (r: (Half, Half))
    requires Wf(c) && Wf(v)
    ensures Wf(r.0) && Wf(r.1)
  {
    var (v1, c1) := Drain(Step(v, Service(now)), c);
    Drain(c1, v1)
  }

  predicate BothUp(r: (Half, Half)) { r.0.ep.state == r.1.ep.state == Connected }

  /** Whatever was lost before, one timeout of a connecting client connects both ends, exactly
      unless the server is up already, or comes up by an acknowledgement left from an
      earlier connection, and has no SYNACK to send: it does not answer SYN then. */
  lemma ClientRecoversExactly(c: Half, v: Half, now: u32)
    requires Wf(c) && Wf(v) && Ids(c, v) && !c.ep.isServer && RetryDue(c.ep, now)
    ensures BothUp(ClientRound(c, v, now)) <==> v.ep.sendSynack || Acked(c.ep, v.ep) != Connected
  {
    hide Drain, Step, Identified;
    Roles(c, v);
    RetryArms(c, v, now);
    var c0 := Step(c, Service(now));
    ClientDrains(c0, v);
    var (c1, v1) := Drain(c0, v);
    ServerDrains(v1, c1);
    var (v2, c2) := Drain(v1, c1);
    if v1.ep.sendSynack { AckDrains(c2, v2); } else { DrainLasts(c2, v2); }
  }

  /** A client that connects anew while its server is still up is not heard. */
  lemma ReconnectUnheard(c: Half, v: Half, now: u32)
    requires Wf(c) && Wf(v) && Ids(c, v) && !c.ep.isServer && v.ep.state == Connected && !v.ep.sendSynack
    requires RetryDue(IpxEndpoint.Connect(c.ep), now)
    ensures !BothUp(ClientRound(Step(c, Connect), v, now))
  {
    hide ClientRound, HandshakeOk;
    ClientRecoversExactly(Step(c, Connect), v, now);
  }

  /** One timeout of a server whose client is up connects both ends. */
  lemma ServerRecovers(c: Half, v: Half, now: u32)
    requires Wf(c) && Wf(v) && Ids(c, v) && !c.ep.isServer && c.ep.state == Connected && RetryDue(v.ep, now)
    ensures BothUp(ServerRound(c, v, now))
  {
    hide Drain, Step, HandshakeOk, SendNext, Feed;
    RetryArms(v, c, now);
    var v0 := Step(v, Service(now));
    SynackHeard(v0.ep, c.ep);
    DrainOne(v0, c);
    DrainLasts(Step(v0, Send(NC_MTU)), Step(c, Op.Deliver(Emitted(v0, NC_MTU))));
    DrainLasts(v0, c);
    var (v1, c1) := Drain(v0, c);
    AckDrains(c1, v1);
  }

  lemma StepRole(h: Half, op: Op)
    requires Wf(h)
    ensures Step(h, op).ep.isServer == h.ep.isServer
  {
    hide Feed, SendNext, SameLayout, AtMostRewinds, IpxEndpoint.Service, Shape;
    match op
    case Deliver(d) => FeedLocal(h.ep, d.bytes);
    case Send(buflen) => SendLocal(h.ep, buflen);
    case Service(now) => ServiceRole(h.ep, now);
    case _ =>
  }

  lemma ServiceRole(e: Endpoint, now: u32)
    requires Shape(e)
    ensures IpxEndpoint.Service(e, now).0.isServer == e.isServer
  {
    hide SameLayout, AtMostRewinds, ServiceConnected, Add32, Add16;
  }

  lemma InitialIds(clientId: u32, serverId: u32, layout: seq<(bool, ChanType)>)
    requires |layout| == NC_MAX_CHAN
    ensures var s := Initial(clientId, serverId, layout);
      Ids(s.client, s.server) && !s.client.ep.isServer && s.server.ep.isServer
  {}

  lemma {:induction false} RunRoles(s: Sys, run: seq<Action>)
    requires SysWf(s)
    ensures var r := Run(s, run);
      r.client.ep.isServer == s.client.ep.isServer && r.server.ep.isServer == s.server.ep.isServer
  {
    hide Step, Wf;
    if run != [] {
      var before, a := run[..|run| - 1], run[|run| - 1];
      RunRoles(s, before);
      var r := Run(s, before);
      if a.atServer { StepRole(r.server, a.op); } else { StepRole(r.client, a.op); }
    }
  }

  /** In every run: a side that is connecting and whose timer runs out brings both ends up, a
      client unless its server believes itself connected, and a server whose client is up. */
  lemma HandshakeRecovers(clientId: u32, serverId: u32, layout: seq<(bool, ChanType)>, run: seq<Action>, now: u32)
    requires |layout| == NC_MAX_CHAN && CanRun(Initial(clientId, serverId, layout), run)
    ensures var s := Run(Initial(clientId, serverId, layout), run);
      && (RetryDue(s.client.ep, now) ==>
            (BothUp(ClientRound(s.client, s.server, now)) <==>
             s.server.ep.sendSynack || Acked(s.client.ep, s.server.ep) != Connected))
      && (RetryDue(s.server.ep, now) && s.client.ep.state == Connected ==> BothUp(ServerRound(s.client, s.server, now)))
  {
    hide Run, CanRun, ClientRound, ServerRound, Identified, SameLayout, RetryDue;
    var s0 := Initial(clientId, serverId, layout);
    InitialIds(clientId, serverId, layout);
    RunIds(s0, run);
    RunRoles(s0, run);
    var s := Run(s0, run);
    if RetryDue(s.client.ep, now) { ClientRecoversExactly(s.client, s.server, now); }
    if RetryDue(s.server.ep, now) && s.client.ep.state == Connected { ServerRecovers(s.client, s.server, now); }
  }

  // ----- a connection that is up -----

  function Power2(n: nat): nat { if n == 0 then 1 else 2 * Power2(n - 1) }

  /** The wait before timeout `a` is followed by the next: 120 ms doubled each time up to
      three times, at most a second. */
  function Wait(a: nat): nat {
    var t := 120 * Power2(if a < 3 then a else 3);
    if t < 1000 then t else 1000
  }

  /** The service of a connection that is up: it is given up exactly when nothing was heard for
      more than ten seconds or the window has timed out twelve times before; a timeout rewinds
      the window and backs off; and a second of silence makes a packet due. */
  lemma ServiceExactly(e: Endpoint, now: u32)
    requires Shape(e) && e.state == Connected && e.now <= now && e.lastRecv <= now && e.lastSend <= now
    requires e.txAttempts < 0xFFFF
    ensures var r := IpxEndpoint.Service(e, now).0;
            var expired := e.txBase != e.txNext && 0 != e.txTimer <= now;
      && (r.state == Closed <==> now - e.lastRecv > 10000 || (expired && e.txAttempts >= 12))
      && (r.state != Closed ==>
            && r == e.(now := now, txAttempts := r.txAttempts, txUnsent := r.txUnsent, txTimer := r.txTimer,
                       ackPending := e.ackPending || now - e.lastSend > 1000)
            && (!expired ==> r.txAttempts == e.txAttempts && r.txUnsent == e.txUnsent && r.txTimer == e.txTimer)
            && (expired ==> r.txAttempts == e.txAttempts + 1 && r.txUnsent == e.txBase
                            && r.txTimer == (now + Wait(e.txAttempts + 1)) % 0x1_0000_0000))
  {
    hide SameLayout, AtMostRewinds, Shape;
    assert Power2(0) == 1 && Power2(1) == 2 && Power2(2) == 4 && Power2(3) == 8;
  }

  /** After a second of silence the next packet goes out, and hearing it starts the other
      end's ten seconds again. */
  lemma KeptAlive(tx: Half, rx: Half, now: u32)
    requires Wf(tx) && Wf(rx) && Ids(tx, rx) && tx.ep.state == Connected && rx.ep.state == Connected
    requires tx.ep.now <= now && tx.ep.lastRecv <= now && now - tx.ep.lastRecv <= 10000
    requires tx.ep.lastSend <= now && now - tx.ep.lastSend > 1000 && tx.ep.txAttempts < 12
    ensures var tx1 := Step(tx, Service(now));
            var rx1 := Step(rx, Op.Deliver(Emitted(tx1, NC_MTU)));
      && SendNext(tx1.ep, NC_MTU).1 != [] && rx1.ep.lastRecv == rx.ep.now && rx1.ep.state == Connected
      && forall t: u32 :: rx.ep.now <= t && t - rx.ep.now <= 10000 && rx1.ep.txAttempts < 12 && rx1.ep.lastSend <= t ==>
           IpxEndpoint.Service(rx1.ep, t).0.state == Connected
  {
    hide Step, SendNext, Identified, IpxEndpoint.Service;
    Wakes(tx, now);
    var tx1 := Step(tx, Service(now));
    ServiceIds(tx, rx, now);
    PassLasts(tx1, rx);
    StaysUp(Step(rx, Op.Deliver(Emitted(tx1, NC_MTU))).ep);
  }

  lemma Wakes(tx: Half, now: u32)
    requires Wf(tx) && tx.ep.state == Connected && tx.ep.now <= now && tx.ep.lastRecv <= now
    requires now - tx.ep.lastRecv <= 10000 && tx.ep.lastSend <= now && now - tx.ep.lastSend > 1000
    requires tx.ep.txAttempts < 12
    ensures SendNext(Step(tx, Service(now)).ep, NC_MTU).1 != []
  {
    hide IpxEndpoint.Service, SendNext;
    ServiceExactly(tx.ep, now);
  }

  lemma StaysUp(e: Endpoint)
    requires Shape(e) && e.state == Connected && e.lastRecv == e.now
    ensures forall t: u32 :: e.now <= t && t - e.now <= 10000 && e.txAttempts < 12 && e.lastSend <= t ==>
      IpxEndpoint.Service(e, t).0.state == Connected
  {
    hide IpxEndpoint.Service, Shape;
    forall t: u32 | e.now <= t && t - e.now <= 10000 && e.txAttempts < 12 && e.lastSend <= t
      ensures IpxEndpoint.Service(e, t).0.state == Connected
    {
      ServiceExactly(e, t);
      assert IpxEndpoint.Service(e, t).0.state != Connecting by { NotConnecting(e, t); }
    }
  }

  lemma NotConnecting(e: Endpoint, t: u32)
    requires Shape(e) && e.state == Connected
    ensures IpxEndpoint.Service(e, t).0.state != Connecting
  {
    hide SameLayout, AtMostRewinds, Resend;
  }

  /** An acknowledgement that frees a message gives the connection its twelve timeouts back and
      starts the timer anew, or stops it when nothing is left; any other changes nothing. */
  lemma ProgressForgives(e: Endpoint, ack: u16)
    ensures var r := ProcessAck(e, ack);
      if r.txBase == e.txBase then r.txAttempts == e.txAttempts && r.txTimer == e.txTimer
      else
        && r.txAttempts == 0
        && r.txTimer == if r.txBase == r.txNext then 0 else (e.now + 120) % 0x1_0000_0000
  {
    hide AdvanceBase, SeqAfter;
  }

  /** A FIN closes the end it names, in any state, and no other. */
  lemma FinCloses(e: Endpoint, p: seq<u8>)
    requires Shape(e) && |p| >= NC_HDR && PacketType(p) == PKT_FIN
    ensures Feed(e, p).0.state == if PacketId(p) == e.localId then Closed else e.state
  {
    hide SameLayout, AtMostRewinds;
  }
}
