/** Recovery of netchan-ipx: after one timeout, everything nc_send_next yields is
    delivered, everything the peer answers is delivered, and then nothing is left
    outstanding. */
module IpxRecovery {
  import opened Bytes
  import opened IpxWire
  import opened IpxEndpoint
  import opened IpxSystem

  // ----- who talks to whom: an invariant of the handshake -----

  /** Packets a side may have put on the network: the server never sends SYN, the
      client never SYNACK, nobody FIN, and a handshake packet names its sender. */
  predicate HandshakeOk(isServer: bool, localId: u32, p: seq<u8>) {
    && |p| >= NC_HDR
    && PacketType(p) != PKT_FIN
    && PacketType(p) != (if isServer then PKT_SYN else PKT_SYNACK)
    && (PacketType(p) == (if isServer then PKT_SYNACK else PKT_SYN) ==>
          |p| >= NC_HDR + 4 && Rd32(p[NC_HDR..]) == localId)
  }

  /** A side that is up (or, at the server, coming up) knows its peer's id. */
  predicate Identified(me: Half, peer: Endpoint) {
    && me.ep.isServer != peer.isServer
    && (if me.ep.isServer then !me.ep.sendSyn && !me.ep.sendAck else !me.ep.sendSynack)
    && (me.ep.state == Connected || (me.ep.isServer && me.ep.state == Connecting) ==>
          me.ep.remoteId == peer.localId)
    && forall d <- me.net :: HandshakeOk(me.ep.isServer, me.ep.localId, d.bytes)
  }

  predicate Ids(a: Half, b: Half) {
    Identified(a, b.ep) && Identified(b, a.ep)
  }

  lemma ControlNamesSender(e: Endpoint)
    requires Shape(e) && HasControl(e)
    requires if e.isServer then !e.sendSyn && !e.sendAck else !e.sendSynack
    ensures HandshakeOk(e.isServer, e.localId, SendControl(e).1)
  {
    var p := SendControl(e).1;
    assert e.sendSynack || !e.sendAck ==> p[NC_HDR..] == Wr32(e.localId);
  }

  lemma DataIsData(e: Endpoint, cap: Capacity)
    requires Shape(e)
    ensures |SendData(e, cap).1| >= NC_HDR && PacketType(SendData(e, cap).1) == PKT_DATA
    ensures PacketId(SendData(e, cap).1) == e.remoteId
  {
    DataPacketRoundTrip(e.remoteId, e.rxNext, RelToSend(e, cap) + UnrelRecords(e.txu[..UnrelToSend(e, cap)]));
  }

  lemma FeedIds(me: Half, peer: Half, d: Datagram)
    requires Wf(me) && Wf(peer) && Ids(me, peer) && d in peer.net
    ensures Ids(Step(me, Op.Deliver(d)), peer)
    ensures me.ep.state == Connected ==> Step(me, Op.Deliver(d)).ep.state == Connected
  {
    hide Feed, SameLayout, Sub16;
    assert HandshakeOk(peer.ep.isServer, peer.ep.localId, d.bytes);
    FeedNames(me.ep, peer.ep.localId, d.bytes);
    hide HandshakeOk;
  }

  /** What a genuine packet can change about who is connected to whom. */
  lemma FeedNames(e: Endpoint, peerId: u32, p: seq<u8>)
    requires Shape(e) && HandshakeOk(!e.isServer, peerId, p)
    requires if e.isServer then !e.sendSyn && !e.sendAck else !e.sendSynack
    requires e.state == Connected || (e.isServer && e.state == Connecting) ==> e.remoteId == peerId
    ensures var e' := Feed(e, p).0;
      && e'.isServer == e.isServer && e'.localId == e.localId
      && (if e.isServer then !e'.sendSyn && !e'.sendAck else !e'.sendSynack)
      && (e'.state == Connected || (e.isServer && e'.state == Connecting) ==> e'.remoteId == peerId)
      && (e.state == Connected ==> e'.state == Connected)
  {
    hide DeliverAll, ProcessAck, ParseRecords, AtMostRewinds, SameLayout, Add32;
  }

  lemma SendIds(me: Half, peer: Half, buflen: nat)
    requires Wf(me) && Wf(peer) && Ids(me, peer)
    ensures Ids(Step(me, Send(buflen)), peer)
    ensures Step(me, Send(buflen)).ep.state == me.ep.state
  {
    hide SameLayout, PackRel, PackUnrel, EncodeRecords, DataPacket;
    if HasControl(me.ep) {
      ControlNamesSender(me.ep);
    } else if HasData(me.ep) && buflen >= NC_HDR {
      DataIsData(me.ep, if buflen < NC_MTU then buflen else NC_MTU);
    }
  }

  lemma ServiceIds(me: Half, peer: Half, now: u32)
    requires Wf(me) && Wf(peer) && Ids(me, peer)
    ensures Ids(Step(me, Service(now)), peer)
  {
    hide SameLayout, AtMostRewinds, ServiceConnected, HandshakeOk;
  }

  lemma StepIds(me: Half, peer: Half, op: Op)
    requires Wf(me) && Wf(peer) && Ids(me, peer) && Enabled(me, peer, op)
    ensures Ids(Step(me, op), peer)
  {
    hide SameLayout, Feed, SendNext, HandshakeOk, IpxEndpoint.Service;
    match op
    case Deliver(d) => FeedIds(me, peer, d);
    case Send(buflen) => SendIds(me, peer, buflen);
    case Service(now) => ServiceIds(me, peer, now);
    case _ =>
  }

  lemma {:induction false} RunIds(s: Sys, run: seq<Action>)
    requires SysWf(s) && Ids(s.client, s.server) && CanRun(s, run)
    ensures var r := Run(s, run); Ids(r.client, r.server)
  {
    hide Identified, Step, Wf;
    if run != [] {
      var before, a := run[..|run| - 1], run[|run| - 1];
      RunIds(s, before);
      var r := Run(s, before);
      if a.atServer {
        StepIds(r.server, r.client, a.op);
      } else {
        StepIds(r.client, r.server, a.op);
      }
    }
  }

  // ----- calling nc_send_next until it has nothing more -----

  function B2N(b: bool): nat { if b then 1 else 0 }

  /** An upper bound on the packets nc_send_next still has to give. */
  function Backlog(e: Endpoint): nat {
    B2N(e.sendSyn) + B2N(e.sendSynack) + B2N(e.sendAck)
    + Sub16(e.txNext, e.txUnsent) + |e.txu| + B2N(e.ackPending)
  }

  /** The first message of a kind that waits fits a packet of its own. */
  predicate NextFits(e: Endpoint, cap: Capacity)
    requires Shape(e)
  {
    || (e.txUnsent != e.txNext && NC_HDR + NC_REC + |e.txw[e.txUnsent % NC_WINDOW].data| <= cap)
    || (e.txu != [] && NC_HDR + NC_REC + |e.txu[0].data| <= cap)
  }

  /** A DATA packet makes progress exactly when it carries a message or an ack was due; with
      too short a buffer nc_send_next gives empty packets for ever. */
  lemma SendShrinksExactly(e: Endpoint, buflen: nat)
    requires Shape(e) && SendNext(e, buflen).1 != []
    ensures Backlog(SendNext(e, buflen).0) < Backlog(e) <==>
            HasControl(e) || e.ackPending || NextFits(e, if buflen < NC_MTU then buflen else NC_MTU)
  {
    hide SameLayout, EncodeRecords, DataPacket, PackRel, PackUnrel, NextFits;
    if !HasControl(e) { CarriesExactly(e, if buflen < NC_MTU then buflen else NC_MTU); }
  }

  /** A packet carries a message exactly when one fits. */
  lemma CarriesExactly(e: Endpoint, cap: Capacity)
    requires Shape(e)
    ensures RelToSend(e, cap) != [] || UnrelToSend(e, cap) > 0 <==> NextFits(e, cap)
  {
    hide SameLayout, EncodeRecords, DataPacket;
    NothingToEncode();
    var rel := RelToSend(e, cap);
    assert rel != [] <==> e.txUnsent != e.txNext && NC_HDR + NC_REC + |e.txw[e.txUnsent % NC_WINDOW].data| <= cap;
    if rel == [] {
      assert UnrelToSend(e, cap) >= 1 <==> e.txu != [] && NC_HDR + NC_REC + |e.txu[0].data| <= cap;
    }
  }

  /** Any stored message fits an empty packet, so with a whole buffer there is always progress. */
  lemma SendShrinks(e: Endpoint)
    requires Shape(e) && SendNext(e, NC_MTU).1 != []
    ensures Backlog(SendNext(e, NC_MTU).0) < Backlog(e)
  {
    SendShrinksExactly(e, NC_MTU);
    hide SendNext, SameLayout;
    if e.txUnsent != e.txNext { assert Short(e.txw[e.txUnsent % NC_WINDOW].data); }
    if e.txu != [] { assert Short(e.txu[0].data); }
  }

  lemma NothingToEncode()
    ensures EncodeRecords([]) == []
  {}

  /** Send from `tx` and deliver at `rx`, packet by packet, until nothing is pending. */
  function Drain(tx: Half, rx: Half): (r: (Half, Half))
    requires Wf(tx) && Wf(rx)
    ensures Wf(r.0) && Wf(r.1)
    decreases Backlog(tx.ep)
  {
    if SendNext(tx.ep, NC_MTU).1 == [] then (tx, rx)
    else
      SendShrinks(tx.ep);
      Drain(Step(tx, Send(NC_MTU)), Step(rx, Op.Deliver(Emitted(tx, NC_MTU))))
  }

  predicate Up(a: Half, b: Half) {
    Wf(a) && Wf(b) && Link(a, b) && Ids(a, b) && a.ep.state == Connected && b.ep.state == Connected
  }

  lemma UpIs(a: Half, b: Half)
    requires Up(a, b)
    ensures Wf(a) && Wf(b) && Link(a, b) && Ids(a, b) && a.ep.state == Connected && b.ep.state == Connected
  {}

  lemma UpSymmetric(a: Half, b: Half)
    requires Up(a, b)
    ensures Up(b, a)
  {
    hide Link, Identified;
    LinkSymmetric(a, b);
  }

  lemma MayCall(me: Half, peer: Half, op: Op)
    requires op.Write? || op.Read? || op.Send?
    ensures Enabled(me, peer, op)
  {}

  lemma MayDeliver(me: Half, peer: Half, d: Datagram)
    requires d in peer.net && Fresh(me, d)
    ensures Enabled(me, peer, Op.Deliver(d))
  {}

  lemma WindowIs(tx: Half, rx: Half)
    requires Link(tx, rx)
    ensures 0 <= Base(tx) <= Unsent(tx) <= |tx.sent| <= Base(tx) + NC_WINDOW && Base(tx) <= rx.rx <= |tx.sent|
  {
    hide HalfOk, ExactPrefix;
  }

  lemma ControlEmits(tx: Half)
    requires Wf(tx) && HasControl(tx.ep) && Unsent(tx) >= 0
    ensures var tx1 := Step(tx, Send(NC_MTU));
            && tx1.ep == SendControl(tx.ep).0
            && !IsData(Emitted(tx, NC_MTU).bytes)
            && Emitted(tx, NC_MTU).lo == Emitted(tx, NC_MTU).hi == Unsent(tx)
            && tx1.ep.ackPending == tx.ep.ackPending
            && tx1.ep.txBase == tx.ep.txBase && tx1.ep.txNext == tx.ep.txNext && tx1.ep.txUnsent == tx.ep.txUnsent
  {
    hide SameLayout;
    assert PacketType(SendControl(tx.ep).1) != PKT_DATA;
  }

  /** A packet delivered at once is fresh, and the exchange keeps everything. */
  lemma ExchangeKeeps(tx: Half, rx: Half)
    requires Up(tx, rx) && SendNext(tx.ep, NC_MTU).1 != []
    ensures var tx1 := Step(tx, Send(NC_MTU));
            var rx1 := Step(rx, Op.Deliver(Emitted(tx, NC_MTU)));
            && Up(tx1, rx1)
            && Emitted(tx, NC_MTU) in tx1.net
            && Fresh(rx, Emitted(tx, NC_MTU))
            && tx1.sent == tx.sent && tx1.rx == tx.rx
  {
    hide HalfOk, ExactPrefix, Identified, Feed, SameLayout, EncodeRecords, PackRel, PackUnrel, DataPacket;
    var tx1, d := Step(tx, Send(NC_MTU)), Emitted(tx, NC_MTU);
    SendKeeps(tx, rx, NC_MTU);
    SendIds(tx, rx, NC_MTU);
    if HasControl(tx.ep) {
      ControlEmits(tx);
    } else {
      SendDataKeeps(tx, rx, NC_MTU);
    }
    assert Fresh(rx, d);
    LinkSymmetric(tx1, rx);
    StepKeeps(rx, tx1, Op.Deliver(d));
    FeedIds(rx, tx1, d);
    LinkSymmetric(Step(rx, Op.Deliver(d)), tx1);
  }

  // ----- a receiver with room takes every record in order -----

  predicate RoomFor(h: Half, n: int)
    requires Wf(h)
  {
    forall c :: 0 <= c < NC_MAX_CHAN && IsReliable(h.ep, c) ==> |h.ep.chans[c].queue| + n <= NC_RECVQ
  }

  lemma RoomForLess(h: Half, n: int, m: int)
    requires Wf(h) && RoomFor(h, n) && m <= n
    ensures RoomFor(h, m)
  {}

  lemma {:induction false} TailLeavesRoom(me: Half, rs: seq<Record>, n: int)
    requires Wf(me) && RoomFor(me, n) && forall i :: 0 <= i < |rs| ==> UnrelOk(me.ep, rs[i])
    ensures var me' := Absorb(me, rs);
            && RoomFor(me', n) && me'.rx == me.rx && me'.ep.ackPending == me.ep.ackPending
    decreases |rs|
  {
    if rs != [] {
      var me1 := Absorb1(me, rs[0]);
      assert me1.ep.rxNext == me.ep.rxNext && me1.ep.ackPending == me.ep.ackPending;
      assert RoomFor(me1, n);
      TailLeavesRoom(me1, rs[1..], n);
    }
  }

  lemma RecordTaken(me: Half, peer: Half, q: nat, top: nat)
    requires Link(me, peer) && q < |peer.sent| && q < top && q <= me.rx <= top && RoomFor(me, top - me.rx)
    requires me.rx < q + 0x1_0000
    ensures var me' := Absorb1(me, RelRecord(peer.sent[q], q));
            && me'.rx == Max(me.rx, q + 1) && RoomFor(me', top - me'.rx) && me'.ep.ackPending
  {
    hide HalfOk, ExactPrefix, SameLayout;
    assert IsReliable(me.ep, peer.sent[q].chan) by {
      assert HalfOk(peer);
      SentIsReliable(peer, me, q);
    }
    RelRecordKeeps(me, peer, q);
    Diff16(me.rx, q);
  }

  lemma SentIsReliable(tx: Half, rx: Half, q: nat)
    requires Wf(tx) && Wf(rx) && HalfOk(tx) && SameLayout(rx.ep, tx.ep) && q < |tx.sent|
    ensures IsReliable(rx.ep, tx.sent[q].chan)
  {}

  lemma {:induction false} RangeTaken(me: Half, peer: Half, lo: nat, hi: nat, tail: seq<Record>, top: nat)
    requires Link(me, peer) && lo <= hi <= top && hi <= |peer.sent|
    requires lo <= me.rx <= top && RoomFor(me, top - me.rx)
    requires me.rx < lo + 0x1_0000
    requires forall i :: 0 <= i < |tail| ==> UnrelOk(me.ep, tail[i])
    ensures var me' := Absorb(me, RelRecords(peer.sent, lo, hi) + tail);
            && me'.rx == Max(me.rx, hi) && RoomFor(me', top - me'.rx)
            && (lo < hi || me.ep.ackPending ==> me'.ep.ackPending)
    decreases hi - lo
  {
    hide HalfOk, ExactPrefix, IpxEndpoint.Deliver, DeliverAll, Base;
    if lo == hi {
      assert RelRecords(peer.sent, lo, hi) + tail == tail;
      TailLeavesRoom(me, tail, top - me.rx);
    } else {
      var r := RelRecord(peer.sent[lo], lo);
      var rest := RelRecords(peer.sent, lo + 1, hi) + tail;
      assert RelRecords(peer.sent, lo, hi) + tail == [r] + rest;
      RelRecordKeeps(me, peer, lo);
      RecordTaken(me, peer, lo, top);
      var me1 := Absorb1(me, r);
      RangeTaken(me1, peer, lo + 1, hi, tail, top);
      RangeKeeps(me1, peer, lo + 1, hi, tail);
      AbsorbCons(me, r, rest);
    }
  }

  /** Everything up to tx_unsent has arrived and the rest has room. */
  predicate InStep(tx: Half, rx: Half)
    requires Wf(rx)
  {
    Unsent(tx) <= rx.rx <= |tx.sent| && RoomFor(rx, |tx.sent| - rx.rx)
  }

  lemma FedConnected(rx: Half, d: Datagram)
    requires Wf(rx) && IsData(d.bytes) && rx.ep.state == Connected && PacketId(d.bytes) == rx.ep.localId
    ensures var e := rx.ep.(lastRecv := rx.ep.now);
            Step(rx, Op.Deliver(d))
            == Absorb(rx.(ep := ProcessAck(e, PacketAck(d.bytes))), ParseRecords(d.bytes[NC_HDR..]))
  {
    hide DeliverAll, ProcessAck, ParseRecords, SameLayout;
  }

  /** One DATA packet delivered at once. */
  lemma DataTaken(tx: Half, rx: Half)
    requires Up(tx, rx) && !HasControl(tx.ep) && HasData(tx.ep)
    ensures var tx1 := Step(tx, Send(NC_MTU));
            var rx1 := Step(rx, Op.Deliver(Emitted(tx, NC_MTU)));
            && Base(rx1) >= tx.rx
            && Base(tx1) == Base(tx)
            && (InStep(tx, rx) ==>
                  && InStep(tx1, rx1)
                  && (rx.ep.ackPending || Unsent(tx1) > Unsent(tx) ==> rx1.ep.ackPending))
  {
    hide HalfOk, ExactPrefix, Identified, EncodeRecords, PackRel, PackUnrel, DataPacket, ParseRecords, ProcessAck,
         DeliverAll, RelRecords, SendNext, Step;
    var tx1, d := Step(tx, Send(NC_MTU)), Emitted(tx, NC_MTU);
    ExchangeKeeps(tx, rx);
    SendDataKeeps(tx, rx, NC_MTU);
    EmittedData(tx, rx);
    FedConnected(rx, d);
    var me := rx.(ep := rx.ep.(lastRecv := rx.ep.now));
    LinkSymmetric(tx1, rx);
    TouchKeeps(rx, tx1, me);
    BodyKeeps(me, tx1, d);
    if InStep(tx, rx) {
      AckKeeps(me, tx1, d.ack);
      var me1 := me.(ep := ProcessAck(me.ep, d.ack % 0x1_0000));
      var rs := ParseRecords(d.bytes[NC_HDR..]);
      var tail := rs[d.hi - d.lo..];
      assert rs == rs[..d.hi - d.lo] + tail;
      forall i | 0 <= i < |tail| ensures UnrelOk(me1.ep, tail[i]) {
        assert UnrelOk(tx1.ep, rs[d.hi - d.lo + i]);
      }
      RangeTaken(me1, tx1, d.lo, d.hi, tail, |tx.sent|);
    }
  }

  lemma EmittedData(tx: Half, rx: Half)
    requires Up(tx, rx) && !HasControl(tx.ep) && HasData(tx.ep)
    ensures var d := Emitted(tx, NC_MTU);
            && IsData(d.bytes) && PacketId(d.bytes) == rx.ep.localId
            && d.ack == tx.rx
            && d.lo <= d.hi <= |tx.sent|
            && GoodData(Step(tx, Send(NC_MTU)), d)
            && Step(tx, Send(NC_MTU)).sent == tx.sent
  {
    hide ExactPrefix, EncodeRecords, PackRel, PackUnrel, DataPacket, ParseRecords, RelRecords;
    DataIsData(tx.ep, NC_MTU);
    SendDataKeeps(tx, rx, NC_MTU);
    assert Good(Step(tx, Send(NC_MTU)), Emitted(tx, NC_MTU));
  }

  lemma TouchKeeps(me: Half, peer: Half, me': Half)
    requires Link(me, peer) && me' == me.(ep := me.ep.(lastRecv := me.ep.now))
    ensures Link(me', peer)
  {
    hide SlotsHold, NetOk, ExactPrefix;
    RewindKeeps(me, peer, me');
  }

  /** One control packet delivered at once leaves the data side alone. */
  lemma ControlTaken(tx: Half, rx: Half)
    requires Up(tx, rx) && HasControl(tx.ep)
    ensures var tx1 := Step(tx, Send(NC_MTU));
            var rx1 := Step(rx, Op.Deliver(Emitted(tx, NC_MTU)));
            && Base(tx1) == Base(tx) && Unsent(tx1) == Unsent(tx)
            && Base(rx1) == Base(rx) && rx1.rx == rx.rx
            && tx1.ep.ackPending == tx.ep.ackPending
            && rx1.ep.ackPending == rx.ep.ackPending && rx1.ep.chans == rx.ep.chans
  {
    hide HalfOk, ExactPrefix, Identified, FeedControl, SameLayout;
    ControlEmits(tx);
  }

  /** Draining a side whose peer has room brings the peer up to tx_next. */
  lemma {:induction false} DrainDelivers(tx: Half, rx: Half)
    requires Up(tx, rx) && InStep(tx, rx) && (Unsent(tx) == Base(tx) || rx.ep.ackPending)
    ensures var (tx', rx') := Drain(tx, rx);
            && Up(tx', rx') && tx'.sent == tx.sent && Base(tx') == Base(tx)
            && rx'.rx == |tx.sent|
            && (Base(tx) == |tx.sent| || rx'.ep.ackPending)
    decreases Backlog(tx.ep)
  {
    hide Link, Ids, Step, SendNext, Shape, Base, Unsent;
    if SendNext(tx.ep, NC_MTU).1 == [] {
      Exhausted(tx, rx);
    } else {
      SendShrinks(tx.ep);
      ExchangeKeeps(tx, rx);
      StepOfSend(tx);
      if HasControl(tx.ep) {
        ControlTaken(tx, rx);
      } else {
        DataTaken(tx, rx);
        UnsentMoves(tx, rx);
      }
      DrainDelivers(Step(tx, Send(NC_MTU)), Step(rx, Op.Deliver(Emitted(tx, NC_MTU))));
    }
  }

  lemma StepOfSend(tx: Half)
    requires Wf(tx)
    ensures Step(tx, Send(NC_MTU)).ep == SendNext(tx.ep, NC_MTU).0
  {}

  lemma UnsentMoves(tx: Half, rx: Half)
    requires Up(tx, rx) && !HasControl(tx.ep) && HasData(tx.ep)
    ensures Unsent(Step(tx, Send(NC_MTU))) >= Unsent(tx)
  {
    SendDataKeeps(tx, rx, NC_MTU);
  }

  lemma Exhausted(tx: Half, rx: Half)
    requires Up(tx, rx) && SendNext(tx.ep, NC_MTU).1 == []
    ensures Unsent(tx) == |tx.sent|
  {}

  /** Draining a side that owes an ack acknowledges everything it has taken. */
  lemma {:induction false} DrainAcks(tx: Half, rx: Half)
    requires Up(tx, rx) && (tx.ep.ackPending || Base(rx) >= tx.rx)
    ensures var (tx', rx') := Drain(tx, rx);
            && Up(tx', rx') && rx'.sent == rx.sent && tx'.rx == tx.rx
            && Base(rx') >= tx.rx
    decreases Backlog(tx.ep)
  {
    hide Link, Ids, Step, SendNext, Shape, Base, Unsent, InStep;
    if SendNext(tx.ep, NC_MTU).1 != [] {
      SendShrinks(tx.ep);
      ExchangeKeeps(tx, rx);
      StepOfSend(tx);
      SentUnchanged(rx, Emitted(tx, NC_MTU));
      if HasControl(tx.ep) {
        ControlTaken(tx, rx);
      } else {
        DataTaken(tx, rx);
      }
      DrainAcks(Step(tx, Send(NC_MTU)), Step(rx, Op.Deliver(Emitted(tx, NC_MTU))));
    }
  }

  lemma SentUnchanged(h: Half, d: Datagram)
    requires Wf(h)
    ensures Step(h, Op.Deliver(d)).sent == h.sent
  {}

  /** The timeout has come and the connection has not been given up. */
  predicate TimeoutDue(h: Half, now: u32) {
    && h.ep.now <= now && now + RT_MAX_MS < 0x1_0000_0000
    && h.ep.txTimer <= now
    && Sub32(now, h.ep.lastRecv) <= IDLE_MS
    && h.ep.txAttempts < RT_ATTEMPTS
  }

  lemma TimeoutRewinds(tx: Half, rx: Half, now: u32)
    requires Up(tx, rx) && TimeoutDue(tx, now)
    ensures var tx1 := Step(tx, Service(now));
            Up(tx1, rx) && Unsent(tx1) == Base(tx1) == Base(tx) && tx1.sent == tx.sent
  {
    hide SlotsHold, NetOk, ExactPrefix, Identified, SameLayout, Sub32;
    ServiceKeeps(tx, rx, now);
    ServiceIds(tx, rx, now);
  }

  /** One timeout, a full drain, lossless delivery and the returned packets leave
      nothing outstanding: the peer has queued everything and it is all acknowledged. */
  lemma OneRoundRecovers(tx: Half, rx: Half, now: u32)
    requires Up(tx, rx) && TimeoutDue(tx, now) && RoomFor(rx, NC_WINDOW)
    ensures var tx1 := Step(tx, Service(now));
            var (tx2, rx2) := Drain(tx1, rx);
            var (rx3, tx3) := Drain(rx2, tx2);
            && rx2.rx == rx3.rx == |tx.sent|
            && Base(tx3) == |tx.sent| == |tx3.sent|
            && rx3.ep.rxNext == tx3.ep.txBase == tx3.ep.txNext
  {
    hide Drain, Identified, HalfOk, ExactPrefix;
    TimeoutRewinds(tx, rx, now);
    var tx1 := Step(tx, Service(now));
    DrainDelivers(tx1, rx);
    var (tx2, rx2) := Drain(tx1, rx);
    LinkSymmetric(tx2, rx2);
    DrainAcks(rx2, tx2);
  }

  /** From every reachable state in which both sides are connected and the reliable
      queues of the receiving side are drained, in either direction. */
  lemma RecoversFromAnyRun(clientId: u32, serverId: u32, layout: seq<(bool, ChanType)>,
                           run: seq<Action>, fromServer: bool, now: u32)
    requires |layout| == NC_MAX_CHAN && CanRun(Initial(clientId, serverId, layout), run)
    requires var r := Run(Initial(clientId, serverId, layout), run);
             var tx := if fromServer then r.server else r.client;
             var rx := if fromServer then r.client else r.server;
             && tx.ep.state == Connected && rx.ep.state == Connected
             && TimeoutDue(tx, now) && RoomFor(rx, NC_WINDOW)
    ensures var r := Run(Initial(clientId, serverId, layout), run);
            var tx := if fromServer then r.server else r.client;
            var rx := if fromServer then r.client else r.server;
            var (tx2, rx2) := Drain(Step(tx, Service(now)), rx);
            var (rx3, tx3) := Drain(rx2, tx2);
            && rx3.rx == |tx.sent|
            && rx3.ep.rxNext == tx3.ep.txBase == tx3.ep.txNext
  {
    hide Run, CanRun, Drain, Step, HalfOk, ExactPrefix, WindowRefines, TimeoutDue, RoomFor;
    var s := Initial(clientId, serverId, layout);
    InitialLink(clientId, serverId, layout);
    RunKeeps(s, run);
    RunIds(s, run);
    var r := Run(s, run);
    LinkSymmetric(r.client, r.server);
    if fromServer {
      OneRoundRecovers(r.server, r.client, now);
    } else {
      OneRoundRecovers(r.client, r.server, now);
    }
  }
}
