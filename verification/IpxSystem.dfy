/** Two netchan-ipx connections and a network that loses, duplicates and reorders
    their datagrams. Every datagram ever sent stays available for delivery, so a
    run may deliver it never, once, many times, or late. The history fields
    (`sent`, `rx`, `got` and the numbers on a datagram) count in unbounded
    naturals; the endpoints themselves only hold 16-bit counters. */
module IpxSystem {
  import opened Bytes
  import opened IpxWire
  import opened IpxEndpoint

  /** A datagram on the network: its bytes, and (not on the wire) the unbounded
      value of its ack and the range [lo, hi) of reliable messages it carries. */
  datatype Datagram = Datagram(bytes: seq<u8>, ack: nat, lo: nat, hi: nat)

  /** One side. `sent` is every reliable message nc_write accepted here, `rx` how
      often rx_next advanced, `got[c]` everything nc_read returned on channel c,
      and `net` every datagram this side has put on the network. */
  datatype Half = Half(ep: Endpoint, sent: seq<Msg>, rx: nat, got: seq<seq<seq<u8>>>, net: set<Datagram>)

  datatype Sys = Sys(client: Half, server: Half)

  datatype Op =
    | Write(ch: int, data: seq<u8>)
    | Read(rch: int, room: nat)
    | Connect
    | Send(buflen: nat)
    | Deliver(d: Datagram)
    | Service(now: u32)

  datatype Action = Action(atServer: bool, op: Op)

  // ----- the unbounded counters behind the 16-bit fields -----

  function Unacked(h: Half): u16 { Sub16(h.ep.txNext, h.ep.txBase) }
  function ToSend(h: Half): u16 { Sub16(h.ep.txNext, h.ep.txUnsent) }
  function Next(h: Half): int { |h.sent| }
  function Base(h: Half): int { |h.sent| - Unacked(h) }
  function Unsent(h: Half): int { |h.sent| - ToSend(h) }

  // ----- steps -----

  predicate Took(e: Endpoint, ch: int, buflen: nat)
    requires Shape(e)
  {
    0 <= ch < NC_MAX_CHAN && e.chans[ch].queue != [] && |e.chans[ch].queue[0]| <= buflen
  }

  predicate Wf(h: Half) {
    Shape(h.ep) && |h.got| == NC_MAX_CHAN
  }

  /** The datagram nc_send_next produces, with its unbounded numbers. */
  function Emitted(me: Half, buflen: nat): Datagram
    requires Wf(me)
  {
    var (e, bytes) := SendNext(me.ep, buflen);
    var lo := if Unsent(me) < 0 then 0 else Unsent(me);
    Datagram(bytes, me.rx, lo, lo + Sub16(e.txUnsent, me.ep.txUnsent))
  }

  /** One API call at `me`; a delivery feeds bytes that `peer` put on the network. */
  function Step(me: Half, op: Op): (r: Half)
    requires Wf(me)
    ensures Wf(r)
  {
    match op
    case Write(ch, data) =>
      var (e, rc) := IpxEndpoint.Write(me.ep, ch, data);
      if rc >= 0 && me.ep.chans[ch].typ == Reliable then
        me.(ep := e, sent := me.sent + [Msg(ch, data)])
      else me.(ep := e)
    case Read(ch, buflen) =>
      var (e, n, data) := IpxEndpoint.Read(me.ep, ch, buflen);
      if Took(me.ep, ch, buflen) then
        me.(ep := e, got := me.got[ch := me.got[ch] + [data]])
      else me.(ep := e)
    case Connect => me.(ep := IpxEndpoint.Connect(me.ep))
    case Send(buflen) =>
      var (e, bytes) := SendNext(me.ep, buflen);
      if bytes == [] then me.(ep := e) else me.(ep := e, net := me.net + {Emitted(me, buflen)})
    case Deliver(d) =>
      var e := Feed(me.ep, d.bytes).0;
      me.(ep := e, rx := me.rx + Sub16(e.rxNext, me.ep.rxNext))
    case Service(now) => me.(ep := IpxEndpoint.Service(me.ep, now).0)
  }

  /** The acknowledgement is at most 2^15 behind the window it is compared with (section 3.2
      of RFC 1982), and the first record less than 2^16 behind the count of received ones. */
  predicate Fresh(me: Half, d: Datagram) {
    d.ack + 0x8000 >= Base(me) && (d.lo < d.hi ==> me.rx < d.lo + 0x1_0000)
  }

  /** A delivery needs a datagram the peer sent; only the client connects; the clock
      does not run backwards or reach its last second. */
  predicate Enabled(me: Half, peer: Half, op: Op) {
    match op
    case Deliver(d) => d in peer.net && Fresh(me, d)
    case Service(now) => me.ep.now <= now && now + RT_MAX_MS < 0x1_0000_0000
    case Connect => !me.ep.isServer
    case _ => true
  }

  predicate SysWf(s: Sys) { Wf(s.client) && Wf(s.server) }

  predicate CanAct(s: Sys, a: Action) {
    if a.atServer then Enabled(s.server, s.client, a.op) else Enabled(s.client, s.server, a.op)
  }

  function Act(s: Sys, a: Action): (r: Sys)
    requires SysWf(s)
    ensures SysWf(r)
  {
    if a.atServer then s.(server := Step(s.server, a.op)) else s.(client := Step(s.client, a.op))
  }

  function Run(s: Sys, as_: seq<Action>): (r: Sys)
    requires SysWf(s)
    ensures SysWf(r)
  {
    if as_ == [] then s else Act(Run(s, as_[..|as_| - 1]), as_[|as_| - 1])
  }

  predicate CanRun(s: Sys, as_: seq<Action>)
    requires SysWf(s)
  {
    as_ == [] || (CanRun(s, as_[..|as_| - 1]) && CanAct(Run(s, as_[..|as_| - 1]), as_[|as_| - 1]))
  }

  /** Both sides open the same channels before anything else; ids are the random
      non-zero connection ids. */
  function Initial(clientId: u32, serverId: u32, layout: seq<(bool, ChanType)>): (s: Sys)
    requires |layout| == NC_MAX_CHAN
    ensures SysWf(s)
  {
    var chans := seq(NC_MAX_CHAN, i requires 0 <= i < NC_MAX_CHAN => Chan(layout[i].0, layout[i].1, []));
    var half := (isServer, id) => Half(Open(isServer, id, chans), [], 0, [[], []], {});
    Sys(half(false, clientId), half(true, serverId))
  }

  // ----- what is claimed -----

  /** The payloads of the messages on channel `c`, in order. */
  function Project(ms: seq<Msg>, c: int): seq<seq<u8>> {
    if ms == [] then []
    else
      var rest := Project(ms[..|ms| - 1], c);
      if ms[|ms| - 1].chan == c then rest + [ms[|ms| - 1].data] else rest
  }

  predicate IsReliable(e: Endpoint, c: int)
    requires Shape(e)
  {
    IsChan(e, c) && e.chans[c].typ == Reliable
  }

  /** Everything the application has read on channel `c` and what waits to be read. */
  function Received(h: Half, c: int): seq<seq<u8>>
    requires Wf(h) && 0 <= c < NC_MAX_CHAN
  {
    h.got[c] + h.ep.chans[c].queue
  }

  /** On every reliable channel the receiver has exactly what was written there
      among the first `rx` messages its peer accepted. */
  predicate ExactPrefix(tx: Half, rx: Half)
    requires Wf(rx)
  {
    && rx.rx <= |tx.sent|
    && forall c :: 0 <= c < NC_MAX_CHAN && IsReliable(rx.ep, c) ==>
                     Received(rx, c) == Project(tx.sent[..rx.rx], c)
  }

  /** The 16-bit fields stand for the unbounded counters, which stay in order. */
  predicate WindowRefines(tx: Half, rx: Half) {
    && 0 <= Base(tx) <= Unsent(tx) <= Next(tx) <= Base(tx) + NC_WINDOW
    && Base(tx) <= rx.rx <= Next(tx)
    && tx.ep.txBase == Base(tx) % 0x1_0000
    && tx.ep.txUnsent == Unsent(tx) % 0x1_0000
    && tx.ep.txNext == Next(tx) % 0x1_0000
    && rx.ep.rxNext == rx.rx % 0x1_0000
  }

  /** Every message not yet acknowledged is still in its slot. */
  predicate SlotsHold(tx: Half)
    requires Wf(tx)
  {
    forall q :: 0 <= q < |tx.sent| && Base(tx) <= q ==>
      tx.ep.txw[q % NC_WINDOW] == Slot(q % 0x1_0000, tx.sent[q].chan, tx.sent[q].data)
  }

  /** An unacknowledged message is either still to be sent or has a timer running. */
  predicate TimerArmed(tx: Half) {
    tx.ep.txTimer == 0 ==> ToSend(tx) == Unacked(tx)
  }

  // ----- the invariant -----

  predicate ContentsOk(h: Half)
    requires Wf(h)
  {
    && (forall i :: 0 <= i < |h.sent| ==> IsReliable(h.ep, h.sent[i].chan) && Short(h.sent[i].data))
    && (forall i :: 0 <= i < |h.ep.txu| ==>
          h.ep.txu[i].chan < NC_MAX_CHAN && h.ep.chans[h.ep.txu[i].chan].typ == Unreliable)
    && h.ep.now + RT_MAX_MS < 0x1_0000_0000
  }

  function RelRecord(m: Msg, q: nat): Record {
    Record(m.chan, MT_REL, q % 0x1_0000, m.data)
  }

  function RelRecords(sent: seq<Msg>, lo: nat, hi: nat): (rs: seq<Record>)
    requires lo <= hi <= |sent|
    ensures |rs| == hi - lo
    decreases hi - lo
  {
    if lo == hi then [] else [RelRecord(sent[lo], lo)] + RelRecords(sent, lo + 1, hi)
  }

  predicate UnrelOk(e: Endpoint, r: Record)
    requires Shape(e)
  {
    r.mt != MT_REL && r.chan < NC_MAX_CHAN && e.chans[r.chan].typ == Unreliable
  }

  predicate IsData(p: seq<u8>) {
    |p| >= NC_HDR && PacketType(p) == PKT_DATA
  }

  predicate GoodData(h: Half, d: Datagram)
    requires Wf(h) && d.lo <= d.hi <= |h.sent| && IsData(d.bytes)
  {
    var rs := ParseRecords(d.bytes[NC_HDR..]);
    && PacketAck(d.bytes) == d.ack % 0x1_0000
    && |rs| >= d.hi - d.lo
    && rs[..d.hi - d.lo] == RelRecords(h.sent, d.lo, d.hi)
    && forall i :: d.hi - d.lo <= i < |rs| ==> UnrelOk(h.ep, rs[i])
  }

  predicate Good(h: Half, d: Datagram)
    requires Wf(h)
  {
    && d.ack <= h.rx
    && d.lo <= d.hi <= |h.sent|
    && (IsData(d.bytes) ==> GoodData(h, d))
  }

  predicate NetOk(h: Half)
    requires Wf(h)
  {
    forall d <- h.net :: Good(h, d)
  }

  predicate HalfOk(h: Half)
    requires Wf(h)
  {
    ContentsOk(h) && SlotsHold(h) && TimerArmed(h) && NetOk(h)
  }

  predicate Link(me: Half, peer: Half) {
    && Wf(me) && Wf(peer)
    && SameLayout(me.ep, peer.ep)
    && HalfOk(me) && HalfOk(peer)
    && WindowRefines(me, peer) && WindowRefines(peer, me)
    && ExactPrefix(me, peer) && ExactPrefix(peer, me)
  }

  // ----- each call keeps it -----

  lemma ProjectAppend(ms: seq<Msg>, m: Msg, c: int)
    ensures Project(ms + [m], c) == if m.chan == c then Project(ms, c) + [m.data] else Project(ms, c)
  {
    assert (ms + [m])[..|ms + [m]| - 1] == ms;
  }

  lemma {:induction false} RelRecordsStay(sent: seq<Msg>, sent': seq<Msg>, lo: nat, hi: nat)
    requires lo <= hi <= |sent| && sent <= sent'
    ensures RelRecords(sent, lo, hi) == RelRecords(sent', lo, hi)
    decreases hi - lo
  {
    if lo < hi {
      RelRecordsStay(sent, sent', lo + 1, hi);
    }
  }

  lemma GoodStays(h: Half, h': Half, d: Datagram)
    requires Wf(h) && Wf(h') && Good(h, d)
    requires h.sent <= h'.sent && h.rx <= h'.rx && SameLayout(h.ep, h'.ep)
    ensures Good(h', d)
  {
    if IsData(d.bytes) {
      RelRecordsStay(h.sent, h'.sent, d.lo, d.hi);
    }
  }

  lemma NetStays(h: Half, h': Half)
    requires Wf(h) && Wf(h') && NetOk(h)
    requires h.sent <= h'.sent && h.rx <= h'.rx && SameLayout(h.ep, h'.ep) && h'.net == h.net
    ensures NetOk(h')
  {
    forall d | d in h'.net ensures Good(h', d) { GoodStays(h, h', d); }
  }

  /** 16-bit subtraction recovers a small difference of the unbounded counters. */
  lemma Diff16(a: int, b: int)
    requires 0 <= a - b < 0x1_0000
    ensures Sub16(a % 0x1_0000, b % 0x1_0000) == a - b
  {}

  lemma Succ16(a: int)
    ensures Add16(a % 0x1_0000, 1) == (a + 1) % 0x1_0000
  {}

  lemma SlotIndex(q: int)
    ensures q % 0x1_0000 % NC_WINDOW == q % NC_WINDOW
  {}

  lemma OtherSlot(q: int, n: int)
    requires 0 < n - q < NC_WINDOW
    ensures q % NC_WINDOW != n % NC_WINDOW
  {}

  lemma AcceptedWindow(me: Half, peer: Half, me': Half)
    requires WindowRefines(me, peer) && Unacked(me) < NC_WINDOW
    requires |me'.sent| == |me.sent| + 1
    requires me'.ep.txBase == me.ep.txBase && me'.ep.txUnsent == me.ep.txUnsent
    requires me'.ep.txNext == Add16(me.ep.txNext, 1)
    ensures WindowRefines(me', peer)
    ensures Base(me') == Base(me) && Unsent(me') == Unsent(me)
  {
    Succ16(Next(me));
    Diff16(Next(me) + 1, Base(me));
    Diff16(Next(me) + 1, Unsent(me));
  }

  lemma AcceptedSlots(me: Half, peer: Half, me': Half, m: Msg)
    requires Wf(me) && Wf(me') && WindowRefines(me, peer) && Unacked(me) < NC_WINDOW && SlotsHold(me)
    requires me'.sent == me.sent + [m] && Base(me') == Base(me)
    requires me'.ep.txw == me.ep.txw[me.ep.txNext % NC_WINDOW := Slot(me.ep.txNext, m.chan, m.data)]
    ensures SlotsHold(me')
  {
    forall q | 0 <= q < |me'.sent| && Base(me') <= q
      ensures me'.ep.txw[q % NC_WINDOW] == Slot(q % 0x1_0000, me'.sent[q].chan, me'.sent[q].data)
    {
      SlotIndex(|me.sent|);
      if q < |me.sent| {
        OtherSlot(q, |me.sent|);
      }
    }
  }

  lemma AcceptedKeeps(me: Half, peer: Half, ch: int, data: seq<u8>)
    requires Link(me, peer)
    requires IsReliable(me.ep, ch) && me.ep.state == Connected && Short(data) && Unacked(me) < NC_WINDOW
    ensures Link(Step(me, Write(ch, data)), peer)
  {
    hide Good, Project;
    var me' := Step(me, Write(ch, data));
    assert me'.sent == me.sent + [Msg(ch, data)];
    NetStays(me, me');
    AcceptedWindow(me, peer, me');
    AcceptedSlots(me, peer, me', Msg(ch, data));
    assert ContentsOk(me');
    assert me'.sent[..peer.rx] == me.sent[..peer.rx];
  }

  lemma WriteKeeps(me: Half, peer: Half, ch: int, data: seq<u8>)
    requires Link(me, peer)
    ensures Link(Step(me, Write(ch, data)), peer)
  {
    hide Good, Project;
    var me' := Step(me, Write(ch, data));
    if IsReliable(me.ep, ch) && me.ep.state == Connected && Short(data) && Unacked(me) < NC_WINDOW {
      AcceptedKeeps(me, peer, ch, data);
    } else {
      assert me'.sent == me.sent;
      NetStays(me, me');
    }
  }

  lemma ReadKeeps(me: Half, peer: Half, ch: int, buflen: nat)
    requires Link(me, peer)
    ensures Link(Step(me, Read(ch, buflen)), peer)
  {
    hide Good, Project;
    var me' := Step(me, Read(ch, buflen));
    NetStays(me, me');
    if Took(me.ep, ch, buflen) {
      var q := me.ep.chans[ch].queue;
      assert me.got[ch] + q == (me.got[ch] + [q[0]]) + q[1..];
    }
  }

  /** Calls that leave the queues and the logs alone and at most rewind tx_unsent. */
  predicate Rewinds(h: Half, h': Half) {
    h' == h.(ep := h'.ep) && AtMostRewinds(h.ep, h'.ep) && h'.ep.now + RT_MAX_MS < 0x1_0000_0000
  }

  lemma RewindKeeps(me: Half, peer: Half, me': Half)
    requires Link(me, peer) && Wf(me') && Rewinds(me, me')
    ensures Link(me', peer)
  {
    hide Good, Project;
    NetStays(me, me');
  }

  lemma ConnectKeeps(me: Half, peer: Half)
    requires Link(me, peer)
    ensures Link(Step(me, Connect), peer)
  {
    hide Good, Project;
    RewindKeeps(me, peer, Step(me, Connect));
  }

  lemma ServiceKeeps(me: Half, peer: Half, now: u32)
    requires Link(me, peer) && Enabled(me, peer, Service(now))
    ensures Link(Step(me, Service(now)), peer)
  {
    hide Good, Project;
    RewindKeeps(me, peer, Step(me, Service(now)));
  }

  // ----- nc_send_next -----

  predicate Holds(txw: seq<Slot>, sent: seq<Msg>, lo: nat)
    requires |txw| == NC_WINDOW
  {
    forall q :: lo <= q < |sent| ==>
      txw[q % NC_WINDOW] == Slot(q % 0x1_0000, sent[q].chan, sent[q].data)
  }

  lemma SlotHolds(txw: seq<Slot>, sent: seq<Msg>, u: nat)
    requires |txw| == NC_WINDOW && u < |sent| && Holds(txw, sent, u)
    ensures SlotRecord(txw[u % NC_WINDOW]) == RelRecord(sent[u], u)
  {}

  /** Packing reads the window out in order, starting at the first unsent message. */
  lemma {:induction false} PackedRecords(txw: seq<Slot>, sent: seq<Msg>, u: nat, room: int)
    requires |txw| == NC_WINDOW && forall i :: 0 <= i < |txw| ==> Short(txw[i].data)
    requires u <= |sent| < u + 0x1_0000 && Holds(txw, sent, u)
    ensures var rs := PackRel(txw, u % 0x1_0000, |sent| % 0x1_0000, room);
            u + |rs| <= |sent| && rs == RelRecords(sent, u, u + |rs|)
    decreases |sent| - u
  {
    hide Add16, Short, RelRecord, SlotRecord;
    Diff16(|sent|, u);
    SlotIndex(u);
    if u < |sent| && NC_REC + |txw[u % NC_WINDOW].data| <= room {
      Succ16(u);
      assert SlotRecord(txw[u % NC_WINDOW]) == RelRecord(sent[u], u) by { SlotHolds(txw, sent, u); }
      PackedRecords(txw, sent, u + 1, room - NC_REC - |txw[u % NC_WINDOW].data|);
    }
  }

  lemma Advance16(a: int, k: u16)
    ensures Add16(a % 0x1_0000, k) == (a + k) % 0x1_0000
  {}

  /** Putting a good datagram on the network and moving tx_unsent up to its end. */
  lemma EmitKeeps(me: Half, peer: Half, me': Half, d: Datagram)
    requires Link(me, peer) && Wf(me') && Good(me, d)
    requires me' == me.(ep := me'.ep, net := me.net + {d})
    requires Unsent(me) <= d.hi && me'.ep.txUnsent == d.hi % 0x1_0000
    requires me'.ep.txw == me.ep.txw && me'.ep.txBase == me.ep.txBase && me'.ep.txNext == me.ep.txNext
    requires me'.ep.txTimer == me.ep.txTimer || me'.ep.txTimer != 0
    requires me'.ep.txTimer == 0 ==> d.hi == Unsent(me) || Unacked(me) == 0
    requires me'.ep.rxNext == me.ep.rxNext && me'.ep.chans == me.ep.chans && me'.ep.now == me.ep.now
    requires forall i :: 0 <= i < |me'.ep.txu| ==> me'.ep.txu[i] in me.ep.txu
    ensures Link(me', peer)
    ensures Base(me') == Base(me) && Unsent(me') == d.hi
  {
    Diff16(Next(me), d.hi);
    NetStays(me, me'.(net := me.net));
    GoodStays(me, me', d);
  }

  lemma PacketIsGood(me: Half, rel: seq<Record>, unrel: seq<Msg>, lo: nat, remote: u32)
    requires Wf(me) && me.ep.rxNext == me.rx % 0x1_0000
    requires AllFit(rel) && lo + |rel| <= |me.sent| && rel == RelRecords(me.sent, lo, lo + |rel|)
    requires forall m <- unrel :: Short(m.data) && m.chan < NC_MAX_CHAN && me.ep.chans[m.chan].typ == Unreliable
    ensures AllFit(rel + UnrelRecords(unrel))
    ensures Good(me, Datagram(DataPacket(remote, me.ep.rxNext, rel + UnrelRecords(unrel)), me.rx, lo, lo + |rel|))
  {
    hide ParseRecords, EncodeRecords, DataPacket, RelRecords, PacketAck, PacketType;
    var rs := rel + UnrelRecords(unrel);
    DataPacketRoundTrip(remote, me.ep.rxNext, rs);
    assert rs[..|rel|] == rel;
    forall i | |rel| <= i < |rs| ensures UnrelOk(me.ep, rs[i]) {
      assert rs[i] == UnrelRecord(unrel[i - |rel|]);
    }
  }

  lemma SendDataKeeps(me: Half, peer: Half, buflen: nat)
    requires Link(me, peer) && !HasControl(me.ep) && HasData(me.ep) && buflen >= NC_HDR
    ensures Link(Step(me, Send(buflen)), peer)
    ensures Base(Step(me, Send(buflen))) == Base(me)
    ensures var cap := if buflen < NC_MTU then buflen else NC_MTU;
      Unsent(Step(me, Send(buflen))) == Unsent(me) + |RelToSend(me.ep, cap)| == Emitted(me, buflen).hi
    ensures Emitted(me, buflen).lo == Unsent(me)
  {
    hide ParseRecords, EncodeRecords, DataPacket, RelRecords, PacketAck, PacketType, PackRel, PackUnrel;
    var e := me.ep;
    var cap := if buflen < NC_MTU then buflen else NC_MTU;
    var rel, n := RelToSend(e, cap), UnrelToSend(e, cap);
    var lo := Unsent(me);
    assert Holds(e.txw, me.sent, lo);
    PackedRecords(e.txw, me.sent, lo, cap - NC_HDR);
    PacketIsGood(me, rel, e.txu[..n], lo, e.remoteId);
    Advance16(lo, |rel|);
    Diff16(lo + |rel|, lo);
    EmitKeeps(me, peer, Step(me, Send(buflen)), Datagram(SendData(e, cap).1, me.rx, lo, lo + |rel|));
  }

  lemma SendControlKeeps(me: Half, peer: Half, buflen: nat)
    requires Link(me, peer) && HasControl(me.ep) && buflen >= NC_HDR
    ensures Link(Step(me, Send(buflen)), peer)
  {
    hide GoodData, Project;
    var d := Datagram(SendControl(me.ep).1, me.rx, Unsent(me), Unsent(me));
    assert PacketType(d.bytes) != PKT_DATA;
    Diff16(Unsent(me), Unsent(me));
    EmitKeeps(me, peer, Step(me, Send(buflen)), d);
  }

  lemma SendKeeps(me: Half, peer: Half, buflen: nat)
    requires Link(me, peer)
    ensures Link(Step(me, Send(buflen)), peer)
  {
    if buflen >= NC_HDR {
      if HasControl(me.ep) {
        SendControlKeeps(me, peer, buflen);
      } else if HasData(me.ep) {
        SendDataKeeps(me, peer, buflen);
      }
    }
  }

  // ----- nc_feed -----

  /** The serial comparison agrees with the unbounded one inside the fresh range. */
  lemma SeqAfterExact(a: nat, b: nat)
    requires b <= a + 0x8000 && a < b + 0x8000
    ensures SeqAfter(a % 0x1_0000, b % 0x1_0000) <==> a > b
  {
    if a >= b { Diff16(a, b); } else { Diff16(b, a); }
  }

  /** The ack loop stops at the ack, or does not move when the ack is old. */
  lemma {:induction false} AckAdvances(base: nat, next: nat, ack: nat)
    requires base <= next <= base + NC_WINDOW && ack <= next && base <= ack + 0x8000
    ensures AdvanceBase(base % 0x1_0000, next % 0x1_0000, ack % 0x1_0000)
         == (if ack > base then ack else base) % 0x1_0000
    decreases next - base
  {
    SeqAfterExact(ack, base);
    Diff16(next, base);
    if ack > base {
      Succ16(base);
      AckAdvances(base + 1, next, ack);
    }
  }

  function Max(a: int, b: int): int { if a > b then a else b }

  /** process_ack on the 16-bit fields is the maximum on the unbounded counters. */
  lemma AckFields(e: Endpoint, base: nat, unsent: nat, next: nat, ack: nat)
    requires base <= unsent <= next <= base + NC_WINDOW && ack <= next && base <= ack + 0x8000
    requires e.txBase == base % 0x1_0000 && e.txUnsent == unsent % 0x1_0000 && e.txNext == next % 0x1_0000
    ensures var e' := ProcessAck(e, ack % 0x1_0000);
            && e'.txBase == Max(base, ack) % 0x1_0000
            && e'.txUnsent == Max(unsent, ack) % 0x1_0000
            && Sub16(e'.txNext, e'.txBase) == next - Max(base, ack)
            && Sub16(e'.txNext, e'.txUnsent) == next - Max(unsent, ack)
            && (e'.txTimer == 0 ==> ack == next || (ack <= base && e.txTimer == 0) || e.now + RT_MS == 0x1_0000_0000)
  {
    hide AdvanceBase;
    AckAdvances(base, next, ack);
    SeqAfterExact(Max(base, ack), unsent);
    Diff16(next, Max(base, ack));
    Diff16(next, Max(unsent, ack));
    Diff16(Max(base, ack), base);
  }

  /** The window may move forward over messages the peer has taken. */
  lemma MoveKeeps(me: Half, peer: Half, me': Half)
    requires Link(me, peer) && Wf(me') && me' == me.(ep := me'.ep)
    requires me'.ep.txw == me.ep.txw && me'.ep.rxNext == me.ep.rxNext && me'.ep.txu == me.ep.txu
    requires me'.ep.chans == me.ep.chans && me'.ep.now == me.ep.now
    requires WindowRefines(me', peer) && Base(me) <= Base(me') && TimerArmed(me')
    ensures Link(me', peer)
  {
    hide Good, Project, Sub16;
    NetStays(me, me');
  }

  /** Handling an ack the peer sent, old or new. */
  lemma AckKeeps(me: Half, peer: Half, ack: nat)
    requires Link(me, peer) && ack <= peer.rx && Base(me) <= ack + 0x8000
    ensures var me' := me.(ep := ProcessAck(me.ep, ack % 0x1_0000));
            Link(me', peer) && Base(me') == Max(Base(me), ack)
  {
    hide ProcessAck, AdvanceBase, SeqAfter, SlotsHold, ExactPrefix, NetOk, SameLayout, Sub16, ChanOk;
    var me' := me.(ep := ProcessAck(me.ep, ack % 0x1_0000));
    AckFields(me.ep, Base(me), Unsent(me), Next(me), ack);
    MoveKeeps(me, peer, me');
  }

  /** The receive side after `rs`. */
  function Absorb(h: Half, rs: seq<Record>): (r: Half)
    requires Wf(h)
    ensures Wf(r)
  {
    var e := DeliverAll(h.ep, rs);
    h.(ep := e, rx := h.rx + Sub16(e.rxNext, h.ep.rxNext))
  }

  function Absorb1(h: Half, r: Record): (h': Half)
    requires Wf(h)
    ensures Wf(h')
  {
    var e := IpxEndpoint.Deliver(h.ep, r);
    h.(ep := e, rx := h.rx + Sub16(e.rxNext, h.ep.rxNext))
  }

  /** One reliable record: taken if it is the next one and there is room. */
  lemma RelRecordKeeps(me: Half, peer: Half, q: nat)
    requires Link(me, peer) && q < |peer.sent| && me.rx < q + 0x1_0000
    ensures var me' := Absorb1(me, RelRecord(peer.sent[q], q));
            && Link(me', peer)
            && me.rx <= me'.rx <= (if q == me.rx then q + 1 else me.rx)
            && Base(me') == Base(me)
            && (q == me.rx && |me.ep.chans[peer.sent[q].chan].queue| < NC_RECVQ ==> me'.rx == q + 1)
  {
    hide Good, Project;
    var m := peer.sent[q];
    var me' := Absorb1(me, RelRecord(m, q));
    if q <= me.rx { Diff16(me.rx, q); } else { Diff16(q, me.rx); }
    Diff16(me.rx, me.rx);
    if q == me.rx && |me.ep.chans[m.chan].queue| < NC_RECVQ {
      Succ16(me.rx);
      Diff16(me.rx + 1, me.rx);
      assert me'.rx == q + 1;
      assert peer.sent[..q + 1] == peer.sent[..q] + [m];
      forall c | 0 <= c < NC_MAX_CHAN && IsReliable(me'.ep, c)
        ensures Received(me', c) == Project(peer.sent[..me'.rx], c)
      {
        ProjectAppend(peer.sent[..q], m, c);
      }
    }
    NetStays(me, me');
  }

  lemma UnrelRecordKeeps(me: Half, peer: Half, r: Record)
    requires Link(me, peer) && UnrelOk(me.ep, r)
    ensures var me' := Absorb1(me, r);
            Link(me', peer) && me'.rx == me.rx && Base(me') == Base(me)
  {
    hide Good, Project;
    NetStays(me, Absorb1(me, r));
  }

  predicate Counted(h: Half) { h.ep.rxNext == h.rx % 0x1_0000 }

  /** Records one at a time and all at once count the same. */
  lemma AbsorbCons(h: Half, r: Record, rs: seq<Record>)
    requires Wf(h) && Counted(h)
    requires var h1 := Absorb1(h, r);
             var h2 := Absorb(h1, rs);
             && Counted(h2)
             && h.rx <= h2.rx < h.rx + 0x1_0000
    ensures Absorb(h, [r] + rs) == Absorb(Absorb1(h, r), rs)
  {
    hide IpxEndpoint.Deliver;
    var h2 := Absorb(Absorb1(h, r), rs);
    assert ([r] + rs)[1..] == rs;
    Diff16(h2.rx, h.rx);
  }

  /** The unreliable tail of a packet never touches a reliable channel. */
  lemma {:induction false} TailKeeps(me: Half, peer: Half, rs: seq<Record>)
    requires Link(me, peer) && forall i :: 0 <= i < |rs| ==> UnrelOk(me.ep, rs[i])
    ensures var me' := Absorb(me, rs);
            Link(me', peer) && me'.rx == me.rx && Base(me') == Base(me)
    decreases |rs|
  {
    hide HalfOk, ExactPrefix, IpxEndpoint.Deliver, Base;
    if rs != [] {
      UnrelRecordKeeps(me, peer, rs[0]);
      var me1 := Absorb1(me, rs[0]);
      TailKeeps(me1, peer, rs[1..]);
      assert rs == [rs[0]] + rs[1..];
      AbsorbCons(me, rs[0], rs[1..]);
    }
  }

  /** A whole packet: reliable records lo..hi in order, then unreliable ones. */
  lemma {:induction false} RangeKeeps(me: Half, peer: Half, lo: nat, hi: nat, tail: seq<Record>)
    requires Link(me, peer) && lo <= hi <= |peer.sent| && me.rx < lo + 0x1_0000
    requires forall i :: 0 <= i < |tail| ==> UnrelOk(me.ep, tail[i])
    ensures var me' := Absorb(me, RelRecords(peer.sent, lo, hi) + tail);
            Link(me', peer) && me.rx <= me'.rx && Base(me') == Base(me)
    decreases hi - lo
  {
    hide Link, IpxEndpoint.Deliver, Base, Absorb, RelRecord, Counted, ChanOk, Short;
    LinkCounts(me, peer);
    if lo == hi {
      assert RelRecords(peer.sent, lo, hi) + tail == tail;
      TailKeeps(me, peer, tail);
    } else {
      var r := RelRecord(peer.sent[lo], lo);
      RelRecordKeeps(me, peer, lo);
      var me1 := Absorb1(me, r);
      assert forall i :: 0 <= i < |tail| ==> UnrelOk(me1.ep, tail[i]);
      RangeKeeps(me1, peer, lo + 1, hi, tail);
      var rest := RelRecords(peer.sent, lo + 1, hi) + tail;
      assert RelRecords(peer.sent, lo, hi) + tail == [r] + rest;
      LinkCounts(Absorb(me1, rest), peer);
      AbsorbCons(me, r, rest);
    }
  }

  lemma LinkCounts(me: Half, peer: Half)
    requires Link(me, peer)
    ensures Wf(me) && Wf(peer) && Counted(me) && me.rx <= Next(peer) <= me.rx + NC_WINDOW
  {
    hide HalfOk, ExactPrefix;
  }

  /** The ack and the records of a DATA packet from the peer. */
  lemma BodyKeeps(me: Half, peer: Half, d: Datagram)
    requires Link(me, peer) && d in peer.net && Fresh(me, d) && IsData(d.bytes)
    ensures var rs := ParseRecords(d.bytes[NC_HDR..]);
            var me' := Absorb(me.(ep := ProcessAck(me.ep, PacketAck(d.bytes))), rs);
            Link(me', peer) && Base(me') == Max(Base(me), d.ack)
  {
    hide ExactPrefix, ParseRecords, ProcessAck, DeliverAll, RelRecords, SlotsHold, TimerArmed, ContentsOk;
    assert Good(peer, d);
    var n := d.hi - d.lo;
    var rs := ParseRecords(d.bytes[NC_HDR..]);
    AckKeeps(me, peer, d.ack);
    var me1 := me.(ep := ProcessAck(me.ep, d.ack % 0x1_0000));
    var tail := rs[n..];
    assert rs == rs[..n] + tail;
    forall i | 0 <= i < |tail| ensures UnrelOk(me1.ep, tail[i]) {
      assert UnrelOk(peer.ep, rs[n + i]);
    }
    if n == 0 {
      assert rs[..n] == [];
      assert rs == tail;
      TailKeeps(me1, peer, tail);
    } else {
      RangeKeeps(me1, peer, d.lo, d.hi, tail);
    }
  }

  /** A DATA packet from the peer, whatever the connection state. */
  lemma FeedDataKeeps(me: Half, peer: Half, d: Datagram)
    requires Link(me, peer) && d in peer.net && Fresh(me, d) && IsData(d.bytes)
    ensures Link(Step(me, Op.Deliver(d)), peer)
  {
    hide NetOk, SlotsHold, ExactPrefix, ParseRecords, ProcessAck, DeliverAll, RelRecords, SameLayout, WindowRefines;
    var e := me.ep.(lastRecv := me.ep.now);
    var up := if e.isServer && e.state == Connecting then e.(state := Connected) else e;
    RewindKeeps(me, peer, me.(ep := e));
    RewindKeeps(me, peer, me.(ep := up));
    if PacketId(d.bytes) == e.localId && up.state == Connected {
      BodyKeeps(me.(ep := up), peer, d);
    }
  }

  lemma FeedControlKeeps(me: Half, peer: Half, d: Datagram)
    requires Link(me, peer) && !IsData(d.bytes)
    ensures Link(Step(me, Op.Deliver(d)), peer)
  {
    hide NetOk, SlotsHold, ExactPrefix, SameLayout, FeedControl, WindowRefines;
    RewindKeeps(me, peer, Step(me, Op.Deliver(d)));
  }

  // ----- every run -----

  lemma StepKeeps(me: Half, peer: Half, op: Op)
    requires Link(me, peer) && Enabled(me, peer, op)
    ensures Link(Step(me, op), peer)
  {
    hide Link, Step;
    match op
    case Write(ch, data) => WriteKeeps(me, peer, ch, data);
    case Read(ch, buflen) => ReadKeeps(me, peer, ch, buflen);
    case Connect => ConnectKeeps(me, peer);
    case Send(buflen) => SendKeeps(me, peer, buflen);
    case Deliver(d) => if IsData(d.bytes) { FeedDataKeeps(me, peer, d); } else { FeedControlKeeps(me, peer, d); }
    case Service(now) => ServiceKeeps(me, peer, now);
  }

  lemma LinkSymmetric(a: Half, b: Half)
    requires Link(a, b)
    ensures Link(b, a)
  {
    hide HalfOk, WindowRefines, ExactPrefix;
  }

  lemma InitialLink(clientId: u32, serverId: u32, layout: seq<(bool, ChanType)>)
    requires |layout| == NC_MAX_CHAN
    ensures var s := Initial(clientId, serverId, layout); Link(s.client, s.server)
  {}

  lemma {:induction false} RunKeeps(s: Sys, as_: seq<Action>)
    requires SysWf(s) && Link(s.client, s.server) && CanRun(s, as_)
    ensures var r := Run(s, as_); Link(r.client, r.server)
  {
    hide Link, Step, Wf;
    if as_ != [] {
      var before, a := as_[..|as_| - 1], as_[|as_| - 1];
      RunKeeps(s, before);
      var r := Run(s, before);
      if a.atServer {
        LinkSymmetric(r.client, r.server);
        StepKeeps(r.server, r.client, a.op);
        LinkSymmetric(Step(r.server, a.op), r.client);
      } else {
        StepKeeps(r.client, r.server, a.op);
      }
    }
  }

  // ----- main results -----

  lemma {:induction false} ProjectPrefix(ms: seq<Msg>, n: nat, c: int)
    requires n <= |ms|
    ensures Project(ms[..n], c) <= Project(ms, c)
    decreases |ms|
  {
    if n == |ms| {
      assert ms[..n] == ms;
    } else {
      var init := ms[..|ms| - 1];
      assert init[..n] == ms[..n];
      ProjectPrefix(init, n, c);
    }
  }

  lemma {:induction false} LayoutKept(s: Sys, run: seq<Action>)
    requires SysWf(s)
    ensures var r := Run(s, run);
            SameLayout(s.client.ep, r.client.ep) && SameLayout(s.server.ep, r.server.ep)
  {
    hide Step;
    if run != [] {
      LayoutKept(s, run[..|run| - 1]);
      var k, a := Run(s, run[..|run| - 1]), run[|run| - 1];
      StepLayout(if a.atServer then k.server else k.client, a.op);
    }
  }

  lemma StepLayout(me: Half, op: Op)
    requires Wf(me)
    ensures SameLayout(me.ep, Step(me, op).ep)
  {
    hide Feed, SendNext, IpxEndpoint.Write, IpxEndpoint.Read, IpxEndpoint.Service, Sub16, AtMostRewinds;
  }

  /** In every run, in both directions and on every reliable channel, the receiver
      has exactly the messages of a prefix of what nc_write accepted, in order and
      without repeats, and what the application has read is a prefix of that. */
  lemma InOrderDelivery(clientId: u32, serverId: u32, layout: seq<(bool, ChanType)>, run: seq<Action>, c: nat)
    requires |layout| == NC_MAX_CHAN && CanRun(Initial(clientId, serverId, layout), run)
    requires c < NC_MAX_CHAN && layout[c] == (true, Reliable)
    ensures var r := Run(Initial(clientId, serverId, layout), run);
            && r.server.rx <= |r.client.sent|
            && r.client.rx <= |r.server.sent|
            && Received(r.server, c) == Project(r.client.sent[..r.server.rx], c)
            && Received(r.client, c) == Project(r.server.sent[..r.client.rx], c)
            && r.server.got[c] <= Project(r.client.sent, c)
            && r.client.got[c] <= Project(r.server.sent, c)
  {
    hide HalfOk, WindowRefines, Run, CanRun, Project;
    var s := Initial(clientId, serverId, layout);
    InitialLink(clientId, serverId, layout);
    RunKeeps(s, run);
    var r := Run(s, run);
    LayoutKept(s, run);
    ProjectPrefix(r.client.sent, r.server.rx, c);
    ProjectPrefix(r.server.sent, r.client.rx, c);
  }

  /** In every run the 16-bit counters stand for unbounded ones in window order,
      across any number of wrap-arounds, and every message the peer has not queued
      is still in its slot. */
  lemma WindowInvariant(clientId: u32, serverId: u32, layout: seq<(bool, ChanType)>, run: seq<Action>)
    requires |layout| == NC_MAX_CHAN && CanRun(Initial(clientId, serverId, layout), run)
    ensures var r := Run(Initial(clientId, serverId, layout), run);
            && WindowRefines(r.client, r.server) && WindowRefines(r.server, r.client)
            && (forall q :: r.server.rx <= q < |r.client.sent| ==>
                  r.client.ep.txw[q % NC_WINDOW]
                  == Slot(q % 0x1_0000, r.client.sent[q].chan, r.client.sent[q].data))
            && (forall q :: r.client.rx <= q < |r.server.sent| ==>
                  r.server.ep.txw[q % NC_WINDOW]
                  == Slot(q % 0x1_0000, r.server.sent[q].chan, r.server.sent[q].data))
  {
    hide NetOk, ContentsOk, ExactPrefix, Run, CanRun;
    var s := Initial(clientId, serverId, layout);
    InitialLink(clientId, serverId, layout);
    RunKeeps(s, run);
  }

  /** In every run, unacknowledged data means a record still to be sent or a
      retransmit timer that is running. */
  lemma UnackedIsPursued(clientId: u32, serverId: u32, layout: seq<(bool, ChanType)>, run: seq<Action>)
    requires |layout| == NC_MAX_CHAN && CanRun(Initial(clientId, serverId, layout), run)
    ensures var r := Run(Initial(clientId, serverId, layout), run);
            && (r.client.ep.txBase != r.client.ep.txNext ==>
                  r.client.ep.txUnsent != r.client.ep.txNext || r.client.ep.txTimer != 0)
            && (r.server.ep.txBase != r.server.ep.txNext ==>
                  r.server.ep.txUnsent != r.server.ep.txNext || r.server.ep.txTimer != 0)
  {
    hide NetOk, ContentsOk, ExactPrefix, SlotsHold, Run, CanRun;
    var s := Initial(clientId, serverId, layout);
    InitialLink(clientId, serverId, layout);
    RunKeeps(s, run);
  }

  /** The freshness bound on acks is the exact one: an ack more than 2^15 (and less
      than 2^16) behind the window is taken for a new one and frees a message the
      peer may not have. */
  lemma StaleAckExact(base: nat, next: nat, ack: nat)
    requires base < next <= base + NC_WINDOW && ack <= next && base < ack + 0x1_0000
    ensures AdvanceBase(base % 0x1_0000, next % 0x1_0000, ack % 0x1_0000) == Max(base, ack) % 0x1_0000
            <==> base <= ack + 0x8000
  {
    if base <= ack + 0x8000 {
      AckAdvances(base, next, ack);
    } else {
      Diff16(base, ack);
      Succ16(base);
      StaleAckMoves(base + 1, next, ack);
    }
  }

  /** Where the loop stops it has gone forward by at most the window. */
  lemma {:induction false} StaleAckMoves(b: nat, next: nat, ack: nat)
    requires b <= next <= b + NC_WINDOW
    ensures exists b' :: b <= b' <= next
                      && AdvanceBase(b % 0x1_0000, next % 0x1_0000, ack % 0x1_0000) == b' % 0x1_0000
    decreases next - b
  {
    Diff16(next, b);
    if b < next {
      Succ16(b);
      StaleAckMoves(b + 1, next, ack);
    }
  }

  /** With one message under way that the peer has not queued, a DATA packet of the peer makes
      the sender give it up exactly when the ack in it is more than 2^15 old. */
  lemma StaleAckLoses(me: Half, peer: Half, d: Datagram)
    requires Link(me, peer) && me.ep.state == Connected && Unacked(me) == 1 && peer.rx == Base(me)
    requires d in peer.net && IsData(d.bytes) && PacketId(d.bytes) == me.ep.localId && Base(me) < d.ack + 0x1_0000
    ensures Unacked(Step(me, Op.Deliver(d))) == 0 <==> d.ack + 0x8000 < Base(me)
  {
    hide SlotsHold, ExactPrefix, SameLayout, ParseRecords, ContentsOk, TimerArmed, DeliverAll, AdvanceBase;
    var base := Base(me);
    assert Good(peer, d);
    StaleAckExact(base, base + 1, d.ack);
    StaleAckMoves(base, base + 1, d.ack);
    Succ16(base);
    Diff16(base + 1, base);
    Diff16(base, base);
    hide HalfOk;
    var e := me.ep.(lastRecv := me.ep.now);
    assert Step(me, Op.Deliver(d)).ep.txBase == AdvanceBase(me.ep.txBase, me.ep.txNext, d.ack % 0x1_0000);
    assert Step(me, Op.Deliver(d)).ep.txNext == me.ep.txNext;
  }
}
