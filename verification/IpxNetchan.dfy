/** The connection object of netchan-ipx, updated in place: a window of slots, an
    unreliable send ring and a receive ring per channel. `View` reads it as the
    value of module IpxEndpoint; each method is that module's function on the view. */
module IpxNetchan {
  import opened Bytes
  import opened IpxWire
  import opened IpxEndpoint

  /** Position `i` places after `head` in a ring of `n`. */
  function Wrap(head: nat, i: nat, n: nat): (k: nat)
    requires head < n && i <= n
    ensures k < n
  {
    if head + i < n then head + i else head + i - n
  }

  lemma WrapOne(head: nat, n: nat)
    requires head < n
    ensures Wrap(head, 1, n) == (head + 1) % n
  {}

  /** Contents of a ring buffer of fixed size, from its head. */
  function Ring<T>(buf: seq<T>, head: nat, count: nat): (r: seq<T>)
    requires count <= |buf| && head < |buf|
    ensures |r| == count
    ensures forall i :: 0 <= i < count ==> r[i] == buf[Wrap(head, i, |buf|)]
  {
    seq(count, i requires 0 <= i < count => buf[Wrap(head, i, |buf|)])
  }

  lemma RingPush<T>(buf: seq<T>, head: nat, count: nat, x: T)
    requires count < |buf| && head < |buf|
    ensures Ring(buf[Wrap(head, count, |buf|) := x], head, count + 1) == Ring(buf, head, count) + [x]
  {}

  lemma RingPop<T>(buf: seq<T>, head: nat, count: nat)
    requires 0 < count <= |buf| && head < |buf|
    ensures Ring(buf, head, count)[0] == buf[head]
    ensures Ring(buf, Wrap(head, 1, |buf|), count - 1) == Ring(buf, head, count)[1..]
  {
    forall i | 0 <= i < count - 1
      ensures Wrap(Wrap(head, 1, |buf|), i, |buf|) == Wrap(head, i + 1, |buf|)
    {}
  }

  /** A channel as stored: its receive ring with head and count. */
  datatype ChanRing = ChanRing(used: bool, typ: ChanType, rxq: seq<seq<u8>>, rxHead: nat, rxCount: nat)

  predicate ChanRingOk(c: ChanRing) {
    && |c.rxq| == NC_RECVQ && c.rxHead < NC_RECVQ && c.rxCount <= NC_RECVQ
    && forall i :: 0 <= i < |c.rxq| ==> Short(c.rxq[i])
  }

  predicate SlotsOk(s: seq<Slot>) {
    |s| == NC_WINDOW && forall i :: 0 <= i < |s| ==> Short(s[i].data)
  }

  predicate MsgsOk(s: seq<Msg>) {
    |s| == NC_UNREL_TXQ && forall i :: 0 <= i < |s| ==> Short(s[i].data)
  }

  predicate RingsOk(s: seq<ChanRing>) {
    |s| == NC_MAX_CHAN && forall i :: 0 <= i < |s| ==> ChanRingOk(s[i])
  }

  function ChanView(c: ChanRing): (r: Chan)
    requires ChanRingOk(c)
    ensures ChanOk(r)
  {
    Chan(c.used, c.typ, Ring(c.rxq, c.rxHead, c.rxCount))
  }

  function ChanViews(cs: seq<ChanRing>): (r: seq<Chan>)
    requires RingsOk(cs)
    ensures |r| == |cs|
    ensures forall i :: 0 <= i < |cs| ==> r[i] == ChanView(cs[i]) && ChanOk(r[i])
  {
    seq(|cs|, i requires 0 <= i < |cs| => ChanView(cs[i]))
  }

  lemma ChanViewsUpdate(cs: seq<ChanRing>, i: nat, c: ChanRing)
    requires i < |cs| && ChanRingOk(c) && RingsOk(cs)
    ensures RingsOk(cs[i := c])
    ensures ChanViews(cs[i := c]) == ChanViews(cs)[i := ChanView(c)]
  {}

  /** What ParseRecords finds at offset `q` of a packet. */
  lemma RecordAt(pkt: seq<u8>, q: nat)
    requires q + NC_REC <= |pkt|
    ensures var dlen := Rd16(pkt[q + 4..q + 6]);
      ParseRecords(pkt[q..]) ==
        if q + NC_REC + dlen > |pkt| then []
        else [Record(pkt[q], pkt[q + 1], Rd16(pkt[q + 2..q + 4]), pkt[q + NC_REC..q + NC_REC + dlen])]
             + ParseRecords(pkt[q + NC_REC + dlen..])
  {
    var p, dlen := pkt[q..], Rd16(pkt[q + 4..q + 6]);
    assert p[2..4] == pkt[q + 2..q + 4] && p[4..6] == pkt[q + 4..q + 6];
    if q + NC_REC + dlen <= |pkt| {
      assert p[NC_REC..NC_REC + dlen] == pkt[q + NC_REC..q + NC_REC + dlen];
      assert p[NC_REC + dlen..] == pkt[q + NC_REC + dlen..];
    }
  }

  lemma NoRecordAt(pkt: seq<u8>, q: nat)
    requires q <= |pkt| < q + NC_REC
    ensures ParseRecords(pkt[q..]) == []
  {}

  lemma DeliverNone(e: Endpoint)
    requires Shape(e)
    ensures DeliverAll(e, []) == e
  {}

  lemma DeliverCons(e: Endpoint, r: Record, rest: seq<Record>)
    requires Shape(e)
    ensures DeliverAll(e, [r] + rest) == DeliverAll(IpxEndpoint.Deliver(e, r), rest)
  {
    assert ([r] + rest)[1..] == rest;
  }

  class Netchan {
    var isServer: bool
    var state: ConnState
    var localId: u32
    var remoteId: u32
    var now: u32
    var lastRecv: u32
    var lastSend: u32
    var sendSyn: bool
    var sendSynack: bool
    var sendAck: bool
    var connectTimer: u32
    var connectAttempts: u16
    const txw: array<Slot>
    var txBase: u16
    var txNext: u16
    var txUnsent: u16
    var txTimer: u32
    var txAttempts: u16
    var rxNext: u16
    var ackPending: bool
    const txu: array<Msg>
    var txuHead: nat
    var txuCount: nat
    const chan: array<ChanRing>

    ghost predicate Valid()
      reads this`txuHead, this`txuCount, txw, txu, chan
    {
      && SlotsOk(txw[..])
      && MsgsOk(txu[..]) && txuHead < NC_UNREL_TXQ && txuCount <= NC_UNREL_TXQ
      && RingsOk(chan[..])
    }

    ghost function View(): (e: Endpoint)
      reads this, txw, txu, chan
      requires Valid()
      ensures Shape(e)
    {
      Endpoint(isServer, state, localId, remoteId, now, lastRecv, lastSend,
               sendSyn, sendSynack, sendAck, connectTimer, connectAttempts,
               txw[..], txBase, txNext, txUnsent, txTimer, txAttempts, rxNext, ackPending,
               Ring(txu[..], txuHead, txuCount), ChanViews(chan[..]))
    }

    /** nc_open, with the channels opened in order. */
    constructor (server: bool, id: u32, layout: seq<(bool, ChanType)>)
      requires |layout| == NC_MAX_CHAN
      ensures Valid() && fresh(txw) && fresh(txu) && fresh(chan)
      ensures View() == Open(server, id, [Chan(layout[0].0, layout[0].1, []), Chan(layout[1].0, layout[1].1, [])])
    {
      isServer, state, localId, remoteId := server, Closed, id, 0;
      now, lastRecv, lastSend := 0, 0, 0;
      sendSyn, sendSynack, sendAck := false, false, false;
      connectTimer, connectAttempts := 0, 0;
      txBase, txNext, txUnsent, txTimer, txAttempts := 0, 0, 0, 0, 0;
      rxNext, ackPending, txuHead, txuCount := 0, false, 0, 0;
      txw := new Slot[NC_WINDOW](_ => Slot(0, 0, []));
      txu := new Msg[NC_UNREL_TXQ](_ => Msg(0, []));
      chan := new ChanRing[NC_MAX_CHAN](i requires 0 <= i < NC_MAX_CHAN =>
        ChanRing(layout[i].0, layout[i].1, seq(NC_RECVQ, _ => []), 0, 0));
    }

    method Connect()
      requires Valid()
      modifies this`state, this`sendSyn, this`connectTimer, this`connectAttempts
      ensures Valid() && View() == IpxEndpoint.Connect(old(View()))
    {
      hide Ring, ChanViews, SlotsOk, MsgsOk, RingsOk, Add32, Add16, Sub16, SeqAfter;
      state, sendSyn := Connecting, true;
      connectTimer, connectAttempts := Add32(now, CONNECT_RETRY_MS), 0;
    }

    /** nc_read into `buf`. */
    method Read(ch: int, buf: array<u8>) returns (n: int)
      requires Valid()
      modifies chan, buf
      ensures Valid()
      ensures var (e, rc, data) := IpxEndpoint.Read(old(View()), ch, buf.Length);
              View() == e && n == rc && (n >= 0 ==> n <= buf.Length && buf[..n] == data)
    {
      if !(0 <= ch < NC_MAX_CHAN) || chan[ch].rxCount == 0 {
        return 0;
      }
      var c := chan[ch];
      var m := c.rxq[c.rxHead];
      RingPop(c.rxq, c.rxHead, c.rxCount);
      if |m| > buf.Length {
        return NC_ERR_TOOBIG;
      }
      var c' := c.(rxHead := (c.rxHead + 1) % NC_RECVQ, rxCount := c.rxCount - 1);
      ChanViewsUpdate(chan[..], ch, c');
      chan[ch] := c';
      assert chan[..] == old(chan[..])[ch := c'];
      CopyIn(buf, 0, m);
      n := |m|;
    }

    /** nc_write on an open reliable channel with room in the window. */
    method WriteReliable(ch: u8, data: seq<u8>)
      requires Valid() && Short(data)
      modifies this`txNext, txw
      ensures Valid()
      ensures var e := old(View());
              View() == e.(txw := e.txw[e.txNext % NC_WINDOW := Slot(e.txNext, ch, data)],
                           txNext := Add16(e.txNext, 1))
    {
      hide Ring, ChanViews, ChanRingOk, Add32, Add16, Sub16, SeqAfter;
      txw[txNext % NC_WINDOW] := Slot(txNext, ch, data);
      assert txw[..] == old(txw[..])[txNext % NC_WINDOW := Slot(txNext, ch, data)];
      txNext := Add16(txNext, 1);
    }

    /** Drop the message at the head of the unreliable ring. */
    method TxuPop()
      requires Valid() && txuCount > 0
      modifies this`txuHead, this`txuCount
      ensures Valid()
      ensures var e := old(View()); |e.txu| > 0 && e.txu[0] == txu[old(txuHead)] && View() == e.(txu := e.txu[1..])
    {
      hide Ring, ChanViews, RingsOk, SlotsOk, Add32, Add16, Sub16, SeqAfter;
      RingPop(txu[..], txuHead, txuCount);
      txuHead, txuCount := (txuHead + 1) % NC_UNREL_TXQ, txuCount - 1;
    }

    method TxuPush(m: Msg)
      requires Valid() && Short(m.data) && txuCount < NC_UNREL_TXQ
      modifies this`txuCount, txu
      ensures Valid()
      ensures var e := old(View()); View() == e.(txu := e.txu + [m])
    {
      hide Ring, ChanViews, RingsOk, SlotsOk, Add32, Add16, Sub16, SeqAfter;
      RingPush(txu[..], txuHead, txuCount, m);
      var i := (txuHead + txuCount) % NC_UNREL_TXQ;
      txu[i] := m;
      assert txu[..] == old(txu[..])[i := m];
      txuCount := txuCount + 1;
    }

    /** nc_write on an open unreliable channel: the oldest queued message gives way. */
    method WriteUnreliable(ch: u8, data: seq<u8>)
      requires Valid() && Short(data)
      modifies this`txuHead, this`txuCount, txu
      ensures Valid()
      ensures var e := old(View());
              View() == e.(txu := (if |e.txu| >= NC_UNREL_TXQ then e.txu[1..] else e.txu) + [Msg(ch, data)])
    {
      hide Ring, ChanViews, RingsOk, SlotsOk, MsgsOk, Add32, Add16, Sub16, SeqAfter;
      if txuCount >= NC_UNREL_TXQ {
        TxuPop();
      }
      assert txuCount < NC_UNREL_TXQ;
      TxuPush(Msg(ch, data));
    }

    /** nc_write. */
    method Write(ch: int, data: seq<u8>) returns (rc: int)
      requires Valid()
      modifies this`txNext, this`txuHead, this`txuCount, txw, txu
      ensures Valid()
      ensures (View(), rc) == IpxEndpoint.Write(old(View()), ch, data)
    {
      hide Ring, ChanRingOk, Add32, Add16, Sub16, SeqAfter;
      if !(0 <= ch < NC_MAX_CHAN) || !chan[ch].used {
        return NC_ERR;
      }
      if state != Connected {
        return NC_ERR_CLOSED;
      }
      if |data| > NC_MAXMSG {
        return NC_ERR_TOOBIG;
      }
      if chan[ch].typ == Reliable {
        if Sub16(txNext, txBase) >= NC_WINDOW {
          return NC_ERR_AGAIN;
        }
        WriteReliable(ch, data);
      } else {
        WriteUnreliable(ch, data);
      }
      rc := |data|;
    }

    // ----- receive path -----

    /** The loop of process_ack. */
    method AdvanceTxBase(ack: u16) returns (progressed: bool)
      requires Valid()
      modifies this`txBase
      ensures Valid() && View() == old(View()).(txBase := AdvanceBase(old(txBase), txNext, ack))
      ensures progressed <==> txBase != old(txBase)
    {
      hide Ring, ChanViews, RingsOk, SlotsOk, MsgsOk, Shape;
      progressed := false;
      ghost var first := txBase;
      while txBase != txNext && SeqAfter(ack, txBase)
        invariant AdvanceBase(txBase, txNext, ack) == AdvanceBase(first, txNext, ack)
        invariant if progressed then Sub16(txNext, txBase) < Sub16(txNext, first) else txBase == first
        decreases Sub16(txNext, txBase)
      {
        txBase := Add16(txBase, 1);
        progressed := true;
      }
    }

    /** process_ack. */
    method ProcessAck(ack: u16)
      requires Valid()
      modifies this`txBase, this`txUnsent, this`txAttempts, this`txTimer
      ensures Valid() && View() == IpxEndpoint.ProcessAck(old(View()), ack)
    {
      hide Valid, View, AdvanceBase, SeqAfter, Add32;
      FieldsOfView();
      var progressed := AdvanceTxBase(ack);
      CatchUp();
      if progressed {
        Rearm();
      }
      FieldsOfView();
    }

    /** The unsent mark never stays behind the base. */
    method CatchUp()
      requires Valid()
      modifies this`txUnsent
      ensures Valid() && View() == old(View()).(txUnsent := if SeqAfter(txBase, old(txUnsent)) then txBase
              else old(txUnsent))
    {
      hide Ring, ChanViews, RingsOk, SlotsOk, MsgsOk, Shape, SeqAfter;
      if SeqAfter(txBase, txUnsent) {
        txUnsent := txBase;
      }
    }

    /** Progress: forget the attempts; the timer runs while anything is unacknowledged. */
    method Rearm()
      requires Valid()
      modifies this`txAttempts, this`txTimer
      ensures Valid() && View() == old(View()).(txAttempts := 0, txTimer := if txBase == txNext then 0
              else Add32(now, RT_MS))
    {
      hide Ring, ChanViews, RingsOk, SlotsOk, MsgsOk, Shape, Add32;
      txAttempts := 0;
      txTimer := if txBase == txNext then 0 else Add32(now, RT_MS);
    }

    lemma FieldsOfView()
      requires Valid()
      ensures View().txBase == txBase && View().txNext == txNext && View().txUnsent == txUnsent && View().now == now
      ensures View().state == state && View().txTimer == txTimer && View().isServer == isServer
    {}

    /** rxq_push. */
    method RxqPush(ch: nat, data: seq<u8>)
      requires Valid() && ch < NC_MAX_CHAN
      modifies chan
      ensures Valid() && View() == Push(old(View()), ch, data)
    {
      hide Ring, SlotsOk, MsgsOk, Add32, Add16, Sub16, SeqAfter;
      var c := chan[ch];
      if c.rxCount >= NC_RECVQ {
        return;
      }
      var m := if |data| > NC_MAXMSG then data[..NC_MAXMSG] else data;
      var i := (c.rxHead + c.rxCount) % NC_RECVQ;
      RingPush(c.rxq, c.rxHead, c.rxCount, m);
      var c' := c.(rxq := c.rxq[i := m], rxCount := c.rxCount + 1);
      ChanViewsUpdate(chan[..], ch, c');
      chan[ch] := c';
      assert chan[..] == old(chan[..])[ch := c'];
    }

    /** deliver. */
    method Deliver(ch: u8, mt: u8, num: u16, data: seq<u8>)
      requires Valid()
      modifies this`rxNext, this`ackPending, chan
      ensures Valid() && View() == IpxEndpoint.Deliver(old(View()), Record(ch, mt, num, data))
    {
      hide Ring, SlotsOk, MsgsOk, SameLayout, ChanRingOk, ChanOk, Add32, Add16, Sub16, SeqAfter;
      var open := ch < NC_MAX_CHAN && chan[ch].used;
      if mt == MT_REL {
        if num == rxNext {
          if open {
            if chan[ch].rxCount >= NC_RECVQ {
              ackPending := true;
              return;
            }
            RxqPush(ch, data);
          }
          rxNext := Add16(rxNext, 1);
        }
        ackPending := true;
      } else if open {
        RxqPush(ch, data);
      }
    }

    /** The record loop of nc_feed. */
    method DeliverRecords(pkt: seq<u8>)
      requires Valid() && |pkt| >= NC_HDR
      modifies this`rxNext, this`ackPending, chan
      ensures Valid() && View() == DeliverAll(old(View()), ParseRecords(pkt[NC_HDR..]))
    {
      hide IpxEndpoint.Deliver, DeliverAll, ParseRecords, Ring, ChanViews, SlotsOk, MsgsOk, RingsOk, SameLayout,
           Shape, Add32, Add16, Sub16, SeqAfter;
      var q := NC_HDR;
      while q + NC_REC <= |pkt|
        invariant NC_HDR <= q <= |pkt| && Valid()
        invariant DeliverAll(View(), ParseRecords(pkt[q..])) == DeliverAll(old(View()), ParseRecords(pkt[NC_HDR..]))
        decreases |pkt| - q
      {
        var ch, mt := pkt[q], pkt[q + 1];
        var num := Rd16(pkt[q + 2..q + 4]);
        var dlen := Rd16(pkt[q + 4..q + 6]);
        RecordAt(pkt, q);
        if q + NC_REC + dlen > |pkt| {
          DeliverNone(View());
          return;
        }
        var data := pkt[q + NC_REC..q + NC_REC + dlen];
        DeliverCons(View(), Record(ch, mt, num, data), ParseRecords(pkt[q + NC_REC + dlen..]));
        Deliver(ch, mt, num, data);
        q := q + NC_REC + dlen;
      }
      NoRecordAt(pkt, q);
      DeliverNone(View());
    }

    /** The DATA case of nc_feed. */
    method FeedData(pkt: seq<u8>) returns (rc: int)
      requires Valid() && |pkt| >= NC_HDR
      modifies this`state, this`txBase, this`txUnsent, this`txAttempts, this`txTimer, this`rxNext, this`ackPending, chan
      ensures Valid()
      ensures (View(), rc) == IpxEndpoint.FeedData(old(View()), pkt)
    {
      hide DeliverAll, ParseRecords, IpxEndpoint.ProcessAck, Ring, ChanViews, SlotsOk, MsgsOk, RingsOk, SameLayout,
           Shape, Add32, Add16, Sub16, SeqAfter;
      if PacketId(pkt) != localId {
        return NC_ERR_PROTO;
      }
      if isServer && state == Connecting {
        state := Connected;
      }
      if state != Connected {
        return NC_OK;
      }
      ProcessAck(PacketAck(pkt));
      DeliverRecords(pkt);
      return NC_OK;
    }

    /** nc_feed. */
    method Feed(pkt: seq<u8>) returns (rc: int)
      requires Valid()
      modifies this, chan
      ensures Valid()
      ensures (View(), rc) == IpxEndpoint.Feed(old(View()), pkt)
    {
      hide IpxEndpoint.FeedData, IpxEndpoint.FeedControl, Ring, ChanViews, SlotsOk, MsgsOk, RingsOk, SameLayout,
           Shape, Add32, Add16, Sub16, SeqAfter;
      if |pkt| < NC_HDR {
        return NC_ERR_PROTO;
      }
      lastRecv := now;
      if PacketType(pkt) == PKT_DATA {
        rc := FeedData(pkt);
      } else {
        rc := FeedControl(pkt);
      }
    }

    method FeedSyn(pkt: seq<u8>) returns (rc: int)
      requires Valid() && |pkt| >= NC_HDR && PacketType(pkt) == PKT_SYN
      modifies this`state, this`remoteId, this`connectTimer, this`connectAttempts, this`sendSynack
      ensures Valid()
      ensures (View(), rc) == IpxEndpoint.FeedControl(old(View()), pkt)
    {
      hide Valid, View, SameLayout, Shape, AtMostRewinds, Rd32, Add32;
      FieldsOfView();
      if !isServer || |pkt| < NC_HDR + 4 {
        return NC_ERR_PROTO;
      }
      if state == Closed {
        StartServing(Rd32(pkt[NC_HDR..]));
      }
      if state == Connecting {
        WantSynack();
      }
      rc := NC_OK;
    }

    /** A closed server takes the caller's id and starts connecting. */
    method StartServing(id: u32)
      requires Valid()
      modifies this`remoteId, this`state, this`connectTimer, this`connectAttempts
      ensures Valid() && state == Connecting
      ensures View() == old(View()).(remoteId := id, state := Connecting,
              connectTimer := Add32(now, CONNECT_RETRY_MS), connectAttempts := 0)
    {
      hide Ring, ChanViews, SlotsOk, MsgsOk, RingsOk, SameLayout, Shape, Add32;
      remoteId, state := id, Connecting;
      connectTimer, connectAttempts := Add32(now, CONNECT_RETRY_MS), 0;
    }

    method WantSynack()
      requires Valid()
      modifies this`sendSynack
      ensures Valid() && View() == old(View()).(sendSynack := true)
    {
      hide Ring, ChanViews, SlotsOk, MsgsOk, RingsOk, SameLayout, Shape, Add32;
      sendSynack := true;
    }

    method FeedControl(pkt: seq<u8>) returns (rc: int)
      requires Valid() && |pkt| >= NC_HDR
      modifies this`state, this`remoteId, this`connectTimer, this`connectAttempts, this`sendSynack, this`sendAck
      ensures Valid()
      ensures (View(), rc) == IpxEndpoint.FeedControl(old(View()), pkt)
    {
      hide Ring, ChanViews, SlotsOk, MsgsOk, RingsOk, SameLayout, Shape, AtMostRewinds, Rd32, Add32, Add16, Sub16,
           SeqAfter;
      var t := PacketType(pkt);
      if t == PKT_SYN {
        rc := FeedSyn(pkt);
        return;
      }
      if t == PKT_SYNACK {
        if isServer || PacketId(pkt) != localId || |pkt| < NC_HDR + 4 {
          return NC_ERR_PROTO;
        }
        remoteId := Rd32(pkt[NC_HDR..]);
        if state == Connecting {
          state := Connected;
        }
        sendAck := true;
      } else if t == PKT_ACK {
        if !isServer || PacketId(pkt) != localId {
          return NC_ERR_PROTO;
        }
        if state == Connecting {
          state := Connected;
        }
      } else if t == PKT_FIN {
        if PacketId(pkt) != localId {
          return NC_ERR_PROTO;
        }
        state := Closed;
      } else {
        return NC_ERR_PROTO;
      }
      rc := NC_OK;
    }

    // ----- transmit path -----

    /** The reliable records of a packet: those not yet on the wire, as many as fit. */
    method PutReliable(buf: array<u8>, cap: Capacity) returns (w: nat)
      requires Valid() && buf.Length >= cap
      modifies this`txUnsent, buf
      ensures Valid()
      ensures var rel := RelToSend(old(View()), cap);
              && View() == old(View()).(txUnsent := Add16(old(txUnsent), |rel|))
              && w == NC_HDR + |EncodeRecords(rel)|
              && buf[NC_HDR..w] == EncodeRecords(rel)
    {
      hide Ring, ChanViews, MsgsOk, RingsOk, Shape, EncodeRecord, EncodeRecords, PackRel, Add16, Add32, Sub16, SeqAfter;
      ghost var slots, rel := txw[..], RelToSend(View(), cap);
      ghost var done: seq<Record> := [];
      w := NC_HDR;
      AtStart(txUnsent);
      while txUnsent != txNext
        invariant txw[..] == slots && SlotsOk(slots)
        invariant NC_HDR <= w <= cap && AllFit(done)
        invariant rel == done + PackRel(slots, txUnsent, txNext, cap - w)
        invariant txUnsent == Add16(old(txUnsent), |done|) && |done| + Sub16(txNext, txUnsent) < 0x1_0000
        invariant w == NC_HDR + |EncodeRecords(done)| && buf[NC_HDR..w] == EncodeRecords(done)
        decreases Sub16(txNext, txUnsent)
      {
        var s := txw[txUnsent % NC_WINDOW];
        assert slots[txUnsent % NC_WINDOW] == s;
        var need := NC_REC + |s.data|;
        if w + need > cap {
          break;
        }
        ghost var r := SlotRecord(s);
        PutAfter(buf, NC_HDR, w, done, SlotRecord(s));
        PackNext(done, slots, txUnsent, txNext, cap - w);
        OneFurther(old(txUnsent), |done|, txNext);
        done, w := done + [r], w + need;
        txUnsent := Add16(txUnsent, 1);
      }
      PackStops(slots, txUnsent, txNext, cap - w);
      assert rel == done + [] == done;
    }

    /** The loop over the unreliable ring: from its head, as many records as fit. */
    method TakeUnreliable(buf: array<u8>, cap: Capacity, start: nat, ghost ms: seq<Msg>) returns (w: nat)
      requires MsgsOk(txu[..]) && txuHead < NC_UNREL_TXQ && txuCount <= NC_UNREL_TXQ
      requires ms == Ring(txu[..], txuHead, txuCount)
      requires NC_HDR <= start <= cap <= buf.Length
      modifies this`txuHead, this`txuCount, buf
      ensures txuHead < NC_UNREL_TXQ && txuCount <= NC_UNREL_TXQ
      ensures Ring(txu[..], txuHead, txuCount) == Left(ms, cap - start)
      ensures AllFit(Packed(ms, cap - start))
      ensures start <= w <= cap && buf[start..w] == EncodeRecords(Packed(ms, cap - start))
      ensures buf[..start] == old(buf[..start])
    {
      hide Ring, EncodeRecord, EncodeRecords, Wrap, Packed, Left, Add32, Add16, Sub16, SeqAfter;
      ghost var ring := txu[..];
      ghost var rs: seq<Record>, rest := [], ms;
      w := start;
      AtStart(0);
      while txuCount > 0
        invariant txu[..] == ring && txuHead < NC_UNREL_TXQ && txuCount <= NC_UNREL_TXQ
        invariant Ring(ring, txuHead, txuCount) == rest
        invariant Packed(ms, cap - start) == rs + Packed(rest, cap - w)
        invariant Left(ms, cap - start) == Left(rest, cap - w)
        invariant start <= w <= cap && buf[..start] == old(buf[..start])
        invariant AllFit(rs) && buf[start..w] == EncodeRecords(rs)
        decreases txuCount
      {
        RingPop(ring, txuHead, txuCount);
        WrapOne(txuHead, NC_UNREL_TXQ);
        var m := txu[txuHead];
        assert rest[0] == ring[txuHead] == m;
        var need := NC_REC + |m.data|;
        if w + need > cap {
          break;
        }
        PutAfter(buf, start, w, rs, UnrelRecord(m));
        PackUnrelNext(rs, rest, cap - w);
        txuHead, txuCount := (txuHead + 1) % NC_UNREL_TXQ, txuCount - 1;
        rs, rest, w := rs + [UnrelRecord(m)], rest[1..], w + need;
      }
      PackUnrelStops(rs, rest, cap - w);
    }

    /** The unreliable records of a packet. */
    method PutUnreliable(buf: array<u8>, cap: Capacity, start: nat) returns (w: nat)
      requires Valid() && NC_HDR <= start <= cap <= buf.Length
      modifies this`txuHead, this`txuCount, buf
      ensures Valid()
      ensures var e := old(View());
              var n := PackUnrel(e.txu, cap - start);
              && View() == e.(txu := e.txu[n..])
              && AllFit(UnrelRecords(e.txu[..n]))
              && start <= w <= cap
              && buf[start..w] == EncodeRecords(UnrelRecords(e.txu[..n]))
              && buf[..start] == old(buf[..start])
    {
      hide Ring, ChanViews, SlotsOk, RingsOk, MsgsOk, EncodeRecords, Shape, PackUnrel, UnrelRecords, Add32, Add16,
           Sub16, SeqAfter;
      w := TakeUnreliable(buf, cap, start, View().txu);
    }

    lemma WhatToSend()
      requires Valid()
      ensures HasControl(View()) <==> sendSynack || sendAck || sendSyn
      ensures HasData(View()) <==> state == Connected && (txUnsent != txNext || txuCount != 0 || ackPending)
    {
      hide ChanViews, SlotsOk, MsgsOk, RingsOk, Shape;
    }

    /** nc_send_next, told that the buffer has `buflen` bytes; 0 when there is nothing. A
        packet with an id in it needs 12 bytes of memory whatever `buflen` says. */
    method SendNext(buf: array<u8>, buflen: nat) returns (n: nat)
      requires Valid() && buflen <= buf.Length
      requires NC_HDR <= buflen && CarriesId(View()) ==> NC_HDR + 4 <= buf.Length
      modifies this, txu, buf
      ensures Valid() && n <= buf.Length
      ensures (View(), buf[..n]) == IpxEndpoint.SendNext(old(View()), buflen)
    {
      WhatToSend();
      hide Valid, View, SameLayout, Shape, IpxEndpoint.SendControl, IpxEndpoint.SendData;
      if buflen < NC_HDR {
        return 0;
      }
      var cap := if buflen < NC_MTU then buflen else NC_MTU;
      if sendSynack || sendAck || sendSyn {
        n := SendControl(buf);
        return;
      }
      if state != Connected || (txUnsent == txNext && txuCount == 0 && !ackPending) {
        return 0;
      }
      n := SendData(buf, cap);
    }

    method SendControl(buf: array<u8>) returns (n: nat)
      requires Valid() && HasControl(View()) && NC_HDR <= buf.Length
      requires CarriesId(View()) ==> NC_HDR + 4 <= buf.Length
      modifies this`sendSyn, this`sendSynack, this`sendAck, this`lastSend, buf
      ensures Valid() && n <= buf.Length
      ensures (View(), buf[..n]) == IpxEndpoint.SendControl(old(View()))
    {
      hide Ring, ChanViews, SlotsOk, MsgsOk, RingsOk, SameLayout, Shape, Header, Wr32, Add32, Add16, Sub16, SeqAfter;
      var p: seq<u8>;
      if sendSynack {
        p := Header(remoteId, PKT_SYNACK, 0) + Wr32(localId);
        sendSynack := false;
      } else if sendAck {
        p := Header(remoteId, PKT_ACK, 0);
        sendAck := false;
      } else {
        p := Header(0, PKT_SYN, 0) + Wr32(localId);
        sendSyn := false;
      }
      lastSend := now;
      CopyIn(buf, 0, p);
      n := |p|;
    }

    method SendData(buf: array<u8>, cap: Capacity) returns (n: nat)
      requires Valid() && buf.Length >= cap
      modifies this`txUnsent, this`txTimer, this`txuHead, this`txuCount, this`ackPending, this`lastSend, buf
      ensures Valid() && n <= cap
      ensures (View(), buf[..n]) == IpxEndpoint.SendData(old(View()), cap)
    {
      hide Ring, ChanViews, SlotsOk, MsgsOk, RingsOk, SameLayout, Shape, Header, EncodeRecords, PackRel, PackUnrel,
           UnrelRecords, Add32, Add16, Sub16, SeqAfter;
      ghost var e := View();
      ghost var rel, unrel := RelToSend(e, cap), UnrelRecords(e.txu[..UnrelToSend(e, cap)]);
      n := PutRecords(buf, cap);
      PutHeader(buf, n, remoteId, rxNext);
      EncodeRecordsConcat(rel, unrel);
      ackPending := false;
      lastSend := now;
    }

    /** Both record loops and the timer, leaving room for the header. */
    method PutRecords(buf: array<u8>, cap: Capacity) returns (n: nat)
      requires Valid() && buf.Length >= cap
      modifies this`txUnsent, this`txTimer, this`txuHead, this`txuCount, buf
      ensures Valid() && NC_HDR <= n <= cap
      ensures var e := old(View());
              var rel, k := RelToSend(e, cap), UnrelToSend(e, cap);
              && View() == e.(txUnsent := Add16(e.txUnsent, |rel|), txu := e.txu[k..],
                              txTimer := if e.txBase != e.txNext && e.txTimer == 0 then Add32(e.now, RT_MS)
                                  else e.txTimer)
              && AllFit(UnrelRecords(e.txu[..k]))
              && buf[NC_HDR..n] == EncodeRecords(rel) + EncodeRecords(UnrelRecords(e.txu[..k]))
    {
      hide Valid, View, SameLayout, Shape, EncodeRecords, PackRel, PackUnrel, UnrelRecords, Add32, Add16, Sub16;
      FieldsOfView();
      var w := PutReliable(buf, cap);
      ghost var rel := buf[NC_HDR..w];
      ghost var front := buf[..w];
      assert front[NC_HDR..] == rel;
      ArmTimer();
      n := PutUnreliable(buf, cap, w);
      JoinParts(buf, w, n);
    }

    /** Unacknowledged data keeps the timer running. */
    method ArmTimer()
      requires Valid()
      modifies this`txTimer
      ensures Valid()
      ensures View() == old(View()).(txTimer := if txBase != txNext && old(txTimer) == 0 then Add32(now, RT_MS)
              else old(txTimer))
    {
      hide Ring, ChanViews, SlotsOk, MsgsOk, RingsOk, SameLayout, Shape, Add32;
      if txBase != txNext && txTimer == 0 {
        txTimer := Add32(now, RT_MS);
      }
    }

    // ----- timers -----

    /** nc_service: the return value is the delay until the next call, -1 when idle. */
    method Service(nowMs: u32) returns (delay: int)
      requires Valid()
      modifies this`now, this`state, this`connectAttempts, this`sendSyn, this`sendSynack, this`connectTimer,
               this`txAttempts, this`txUnsent, this`txTimer, this`ackPending
      ensures Valid()
      ensures (View(), delay) == IpxEndpoint.Service(old(View()), nowMs)
    {
      hide Valid, View, SameLayout, Shape, AtMostRewinds, IpxEndpoint.ServiceConnecting, IpxEndpoint.ServiceConnected;
      SetNow(nowMs);
      FieldsOfView();
      if state == Connecting {
        delay := ServiceConnecting();
      } else if state == Connected {
        delay := ServiceConnected();
      } else {
        delay := -1;
      }
    }

    method SetNow(nowMs: u32)
      requires Valid()
      modifies this`now
      ensures Valid() && View() == old(View()).(now := nowMs)
    {
      hide Ring, ChanViews, SlotsOk, MsgsOk, RingsOk, SameLayout, Shape, Add32;
      now := nowMs;
    }

    method ServiceConnecting() returns (delay: int)
      requires Valid()
      modifies this`state, this`connectAttempts, this`sendSyn, this`sendSynack, this`connectTimer
      ensures Valid()
      ensures (View(), delay) == IpxEndpoint.ServiceConnecting(old(View()))
    {
      hide Ring, ChanViews, SlotsOk, MsgsOk, RingsOk, SameLayout, Shape, AtMostRewinds, Add16, Add32, Sub16, SeqAfter;
      if now >= connectTimer {
        connectAttempts := Add16(connectAttempts, 1);
        if connectAttempts > CONNECT_RETRIES {
          state := Closed;
          return -1;
        }
        if isServer {
          sendSynack := true;
        } else {
          sendSyn := true;
        }
        connectTimer := Add32(now, CONNECT_RETRY_MS);
      }
      delay := CONNECT_RETRY_MS;
    }

    method ServiceConnected() returns (delay: int)
      requires Valid() && state == Connected
      modifies this`state, this`txAttempts, this`txUnsent, this`txTimer, this`ackPending
      ensures Valid()
      ensures (View(), delay) == IpxEndpoint.ServiceConnected(old(View()))
    {
      hide Ring, ChanViews, SlotsOk, MsgsOk, RingsOk, SameLayout, Shape, AtMostRewinds, Sub32,
           IpxEndpoint.Retransmit, Add32, Add16, Sub16, SeqAfter;
      if Sub32(now, lastRecv) > IDLE_MS {
        state := Closed;
        return -1;
      }
      if txBase != txNext && txTimer != 0 && now >= txTimer {
        Retransmit();
        if state == Closed {
          return -1;
        }
      }
      if Sub32(now, lastSend) > KEEPALIVE_MS {
        ackPending := true;
      }
      delay := RT_MS;
    }

    /** The retransmit timer has run out. */
    method Retransmit()
      requires Valid()
      modifies this`state, this`txAttempts, this`txUnsent, this`txTimer
      ensures Valid() && View() == IpxEndpoint.Retransmit(old(View()))
    {
      hide Ring, ChanViews, SlotsOk, MsgsOk, RingsOk, SameLayout, Shape, AtMostRewinds, Add16, Add32, Backoff, Sub16,
           SeqAfter;
      txAttempts := Add16(txAttempts, 1);
      if txAttempts > RT_ATTEMPTS {
        state := Closed;
        return;
      }
      txUnsent := txBase;
      txTimer := Add32(now, Backoff(txAttempts));
    }
  }

  /** memcpy of `src` to position `at`. */
  method CopyIn(buf: array<u8>, at: nat, src: seq<u8>)
    requires at + |src| <= buf.Length
    modifies buf
    ensures buf[at..at + |src|] == src
    ensures buf[..at] == old(buf[..at])
    ensures buf[at + |src|..] == old(buf[at + |src|..])
  {
    for i := 0 to |src|
      invariant buf[at..at + i] == src[..i]
      invariant buf[..at] == old(buf[..at])
      invariant buf[at + |src|..] == old(buf[at + |src|..])
    {
      buf[at + i] := src[i];
      assert buf[at..at + i + 1] == buf[at..at + i] + [src[i]];
    }
  }

  lemma Cuts(s: seq<u8>, i: nat, j: nat, k: nat)
    requires i <= j <= k <= |s|
    ensures s[..j][..i] == s[..i] && s[..j][i..] == s[i..j] && s[i..k] == s[i..j] + s[j..k]
  {}

  /** Write one record header and payload at position `w`. */
  method PutRecord(buf: array<u8>, w: nat, r: Record)
    requires Fits(r) && w + NC_REC + |r.data| <= buf.Length
    modifies buf
    ensures buf[w..w + NC_REC + |r.data|] == EncodeRecord(r)
    ensures buf[..w] == old(buf[..w])
  {
    var hdr := [r.chan, r.mt] + Wr16(r.num) + Wr16(|r.data|);
    assert |hdr| == NC_REC && EncodeRecord(r) == hdr + r.data;
    hide EncodeRecord, Fits;
    CopyIn(buf, w, hdr);
    Cuts(buf[..], w, w + NC_REC, w + NC_REC);
    CopyIn(buf, w + NC_REC, r.data);
    Cuts(buf[..], w, w + NC_REC, w + NC_REC + |r.data|);
  }

  /** One more record after those written from `start` to `w`. */
  method PutAfter(buf: array<u8>, start: nat, w: nat, ghost rs: seq<Record>, r: Record)
    requires AllFit(rs) && Fits(r) && start <= w && w + NC_REC + |r.data| <= buf.Length
    requires buf[start..w] == EncodeRecords(rs)
    modifies buf
    ensures AllFit(rs + [r])
    ensures buf[start..w + NC_REC + |r.data|] == EncodeRecords(rs + [r])
    ensures |EncodeRecords(rs + [r])| == w - start + NC_REC + |r.data|
    ensures buf[..start] == old(buf[..start])
  {
    hide EncodeRecords, EncodeRecord;
    AppendEncoded(rs, r);
    ghost var front := buf[..w];
    assert front[start..] == buf[start..w] && front[..start] == buf[..start];
    PutRecord(buf, w, r);
    ghost var end := w + NC_REC + |r.data|;
    assert buf[start..end] == front[start..] + buf[w..end];
    assert buf[..start] == front[..start];
  }

  /** Fill in the header in front of the records already written. */
  method PutHeader(buf: array<u8>, n: nat, id: u32, ack: u16)
    requires NC_HDR <= n <= buf.Length
    modifies buf
    ensures buf[..n] == Header(id, PKT_DATA, ack) + old(buf[NC_HDR..n])
  {
    var h := Header(id, PKT_DATA, ack);
    ghost var records := buf[NC_HDR..n];
    assert records == buf[NC_HDR..][..n - NC_HDR];
    CopyIn(buf, 0, h);
    assert buf[NC_HDR..n] == buf[NC_HDR..][..n - NC_HDR];
    assert buf[..n] == buf[0..NC_HDR] + buf[NC_HDR..n];
  }

  lemma AtStart(unsent: u16)
    ensures EncodeRecords([]) == [] && Add16(unsent, 0) == unsent
  {}

  lemma AppendEncoded(rs: seq<Record>, r: Record)
    requires AllFit(rs) && Fits(r)
    ensures AllFit(rs + [r]) && EncodeRecords(rs + [r]) == EncodeRecords(rs) + EncodeRecord(r)
  {
    EncodeRecordsConcat(rs, [r]);
    assert EncodeRecords([r]) == EncodeRecord(r);
  }

  lemma JoinParts(buf: array<u8>, mid: nat, end: nat)
    requires NC_HDR <= mid <= end <= buf.Length
    ensures buf[NC_HDR..end] == buf[..mid][NC_HDR..] + buf[mid..end]
  {}

  lemma PackNext(done: seq<Record>, slots: seq<Slot>, unsent: u16, next: u16, room: int)
    requires SlotsOk(slots) && unsent != next && NC_REC + |slots[unsent % NC_WINDOW].data| <= room
    ensures done + PackRel(slots, unsent, next, room)
         == (done + [SlotRecord(slots[unsent % NC_WINDOW])])
            + PackRel(slots, Add16(unsent, 1), next, room - NC_REC - |slots[unsent % NC_WINDOW].data|)
  {}

  lemma OneFurther(start: u16, k: nat, next: u16)
    requires k < 0xffff && Add16(start, k) != next && k + Sub16(next, Add16(start, k)) < 0x1_0000
    ensures Add16(Add16(start, k), 1) == Add16(start, k + 1)
    ensures Sub16(next, Add16(start, k + 1)) == Sub16(next, Add16(start, k)) - 1
  {}

  lemma PackStops(slots: seq<Slot>, unsent: u16, next: u16, room: int)
    requires SlotsOk(slots) && (unsent == next || NC_REC + |slots[unsent % NC_WINDOW].data| > room)
    ensures PackRel(slots, unsent, next, room) == []
  {}

  /** The records PackUnrel takes, and the messages it leaves. */
  ghost function Packed(ms: seq<Msg>, room: int): seq<Record> {
    UnrelRecords(ms[..PackUnrel(ms, room)])
  }

  ghost function Left(ms: seq<Msg>, room: int): seq<Msg> {
    ms[PackUnrel(ms, room)..]
  }

  lemma PackUnrelNext(rs: seq<Record>, ms: seq<Msg>, room: int)
    requires ms != [] && NC_REC + |ms[0].data| <= room
    ensures rs + Packed(ms, room) == (rs + [UnrelRecord(ms[0])]) + Packed(ms[1..], room - NC_REC - |ms[0].data|)
    ensures Left(ms, room) == Left(ms[1..], room - NC_REC - |ms[0].data|)
  {
    var k := PackUnrel(ms[1..], room - NC_REC - |ms[0].data|);
    assert PackUnrel(ms, room) == 1 + k;
    assert ms[..1 + k] == [ms[0]] + ms[1..][..k];
    assert UnrelRecords(ms[..1 + k]) == [UnrelRecord(ms[0])] + UnrelRecords(ms[1..][..k]);
    hide PackUnrel, UnrelRecords, UnrelRecord;
    assert ms[1 + k..] == ms[1..][k..];
  }

  lemma PackUnrelStops(rs: seq<Record>, ms: seq<Msg>, room: int)
    requires ms == [] || NC_REC + |ms[0].data| > room
    ensures rs + Packed(ms, room) == rs && Left(ms, room) == ms
  {}
}
