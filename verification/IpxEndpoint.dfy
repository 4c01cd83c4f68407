/** One netchan-ipx connection as a value: the state the C struct holds, with the
    ring buffers read as sequences, and one function per API call. The class in
    IpxNetchan performs the same calls in place over the rings. */
module IpxEndpoint {
  import opened Bytes
  import opened IpxWire

  const NC_WINDOW := 8
  const NC_MAX_CHAN := 2
  const NC_RECVQ := NC_WINDOW
  const NC_UNREL_TXQ := 4

  const RT_MS := 120
  const RT_MAX_MS := 1000
  const RT_ATTEMPTS := 12
  const CONNECT_RETRY_MS := 250
  const CONNECT_RETRIES := 240
  const KEEPALIVE_MS := 1000
  const IDLE_MS := 10000

  const NC_OK := 0
  const NC_ERR := -1
  const NC_ERR_AGAIN := -3
  const NC_ERR_CLOSED := -4
  const NC_ERR_TOOBIG := -5
  const NC_ERR_PROTO := -6

  datatype ChanType = Reliable | Unreliable

  /** A channel; `queue` is the receive ring read from its head. */
  datatype Chan = Chan(used: bool, typ: ChanType, queue: seq<seq<u8>>)

  datatype ConnState = Closed | Connecting | Connected

  /** A slot of the reliable send window. */
  datatype Slot = Slot(num: u16, chan: u8, data: seq<u8>)

  /** A message and the channel it belongs to. */
  datatype Msg = Msg(chan: u8, data: seq<u8>)

  datatype Endpoint = Endpoint(
    isServer: bool, state: ConnState, localId: u32, remoteId: u32,
    now: u32, lastRecv: u32, lastSend: u32,
    sendSyn: bool, sendSynack: bool, sendAck: bool,
    connectTimer: u32, connectAttempts: u16,
    txw: seq<Slot>, txBase: u16, txNext: u16, txUnsent: u16,
    txTimer: u32, txAttempts: u16,
    rxNext: u16, ackPending: bool,
    txu: seq<Msg>, chans: seq<Chan>)

  // ----- 16- and 32-bit arithmetic, wrapping as the unsigned C types do -----

  function Add16(a: u16, b: u16): u16 {
    var s: int := a + b as int;
    if s >= 0x1_0000 then s - 0x1_0000 else s
  }

  function Sub16(a: u16, b: u16): u16 {
    if a >= b then a - b else (a as int) + 0x1_0000 - b
  }

  function Add32(a: u32, b: u32): u32 {
    var s: int := a + b as int;
    if s >= 0x1_0000_0000 then s - 0x1_0000_0000 else s
  }

  function Sub32(a: u32, b: u32): u32 {
    if a >= b then a - b else (a as int) + 0x1_0000_0000 - b
  }

  /** RFC 1982 comparison: the signed 16-bit difference is positive. */
  predicate SeqAfter(a: u16, b: u16) {
    0 < Sub16(a, b) < 0x8000
  }

  // ----- what every call keeps about the stored data -----

  predicate Short(s: seq<u8>) { |s| <= NC_MAXMSG }

  predicate ChanOk(c: Chan) {
    |c.queue| <= NC_RECVQ && forall i :: 0 <= i < |c.queue| ==> Short(c.queue[i])
  }

  predicate Shape(e: Endpoint) {
    && |e.txw| == NC_WINDOW
    && (forall i :: 0 <= i < |e.txw| ==> Short(e.txw[i].data))
    && |e.txu| <= NC_UNREL_TXQ
    && (forall i :: 0 <= i < |e.txu| ==> Short(e.txu[i].data))
    && |e.chans| == NC_MAX_CHAN
    && (forall i :: 0 <= i < |e.chans| ==> ChanOk(e.chans[i]))
  }

  /** The same channels are open with the same types. */
  predicate SameLayout(a: Endpoint, b: Endpoint)
    requires Shape(a) && Shape(b)
  {
    forall c :: 0 <= c < NC_MAX_CHAN ==>
      a.chans[c].used == b.chans[c].used && a.chans[c].typ == b.chans[c].typ
  }

  /** The queues and the window stay; at most tx_unsent rewinds to tx_base. */
  predicate AtMostRewinds(e: Endpoint, e': Endpoint) {
    && e'.txw == e.txw && e'.txBase == e.txBase && e'.txNext == e.txNext
    && (e'.txUnsent == e.txUnsent || e'.txUnsent == e.txBase)
    && (e'.txTimer == e.txTimer || (e'.txUnsent == e.txBase && e'.txTimer != 0))
    && e'.rxNext == e.rxNext && e'.txu == e.txu && e'.chans == e.chans
  }

  // ----- nc_open, nc_connect, nc_read, nc_write -----

  function Open(isServer: bool, localId: u32, chans: seq<Chan>): (e: Endpoint)
    requires |chans| == NC_MAX_CHAN && forall i :: 0 <= i < |chans| ==> ChanOk(chans[i])
    ensures Shape(e)
  {
    Endpoint(isServer, Closed, localId, 0, 0, 0, 0, false, false, false, 0, 0,
             seq(NC_WINDOW, i => Slot(0, 0, [])), 0, 0, 0, 0, 0, 0, false, [], chans)
  }

  function Connect(e: Endpoint): Endpoint {
    e.(state := Connecting, sendSyn := true,
       connectTimer := Add32(e.now, CONNECT_RETRY_MS), connectAttempts := 0)
  }

  predicate IsChan(e: Endpoint, ch: int)
    requires Shape(e)
  {
    0 <= ch < NC_MAX_CHAN && e.chans[ch].used
  }

  function Read(e: Endpoint, ch: int, buflen: nat): (r: (Endpoint, int, seq<u8>))
    requires Shape(e)
    ensures Shape(r.0) && SameLayout(e, r.0)
  {
    if !(0 <= ch < NC_MAX_CHAN) || e.chans[ch].queue == [] then (e, 0, [])
    else
      var c := e.chans[ch];
      if |c.queue[0]| > buflen then (e, NC_ERR_TOOBIG, [])
      else (e.(chans := e.chans[ch := c.(queue := c.queue[1..])]), |c.queue[0]|, c.queue[0])
  }

  function Write(e: Endpoint, ch: int, data: seq<u8>): (r: (Endpoint, int))
    requires Shape(e)
    ensures Shape(r.0) && SameLayout(e, r.0)
  {
    if !IsChan(e, ch) then (e, NC_ERR)
    else if e.state != Connected then (e, NC_ERR_CLOSED)
    else if |data| > NC_MAXMSG then (e, NC_ERR_TOOBIG)
    else if e.chans[ch].typ == Reliable then
      if Sub16(e.txNext, e.txBase) >= NC_WINDOW then (e, NC_ERR_AGAIN)
      else (e.(txw := e.txw[e.txNext % NC_WINDOW := Slot(e.txNext, ch, data)],
               txNext := Add16(e.txNext, 1)), |data|)
    else
      var kept := if |e.txu| >= NC_UNREL_TXQ then e.txu[1..] else e.txu;
      (e.(txu := kept + [Msg(ch, data)]), |data|)
  }

  // ----- nc_feed -----

  /** The loop of process_ack. */
  function AdvanceBase(base: u16, next: u16, ack: u16): u16
    decreases Sub16(next, base)
  {
    if base != next && SeqAfter(ack, base) then AdvanceBase(Add16(base, 1), next, ack) else base
  }

  function ProcessAck(e: Endpoint, ack: u16): (r: Endpoint)
    ensures r == e.(txBase := r.txBase, txUnsent := r.txUnsent, txTimer := r.txTimer, txAttempts := r.txAttempts)
  {
    var base := AdvanceBase(e.txBase, e.txNext, ack);
    var e' := e.(txBase := base, txUnsent := if SeqAfter(base, e.txUnsent) then base else e.txUnsent);
    if base == e.txBase then e'
    else e'.(txAttempts := 0, txTimer := if base == e.txNext then 0 else Add32(e.now, RT_MS))
  }

  function Push(e: Endpoint, ch: int, data: seq<u8>): (r: Endpoint)
    requires Shape(e) && 0 <= ch < NC_MAX_CHAN
    ensures Shape(r) && SameLayout(e, r)
    ensures r == e.(chans := r.chans)
  {
    var c := e.chans[ch];
    if |c.queue| >= NC_RECVQ then e
    else
      var kept := if |data| > NC_MAXMSG then data[..NC_MAXMSG] else data;
      e.(chans := e.chans[ch := c.(queue := c.queue + [kept])])
  }

  function Deliver(e: Endpoint, r: Record): (e': Endpoint)
    requires Shape(e)
    ensures Shape(e') && SameLayout(e, e')
    ensures e' == e.(rxNext := e'.rxNext, ackPending := e'.ackPending, chans := e'.chans)
  {
    if r.mt != MT_REL then
      if IsChan(e, r.chan) then Push(e, r.chan, r.data) else e
    else if r.num != e.rxNext then e.(ackPending := true)
    else if !IsChan(e, r.chan) then e.(rxNext := Add16(e.rxNext, 1), ackPending := true)
    else if |e.chans[r.chan].queue| >= NC_RECVQ then e.(ackPending := true)
    else Push(e, r.chan, r.data).(rxNext := Add16(e.rxNext, 1), ackPending := true)
  }

  function DeliverAll(e: Endpoint, rs: seq<Record>): (e': Endpoint)
    requires Shape(e)
    ensures Shape(e') && SameLayout(e, e')
    ensures e' == e.(rxNext := e'.rxNext, ackPending := e'.ackPending, chans := e'.chans)
    decreases |rs|
  {
    if rs == [] then e else DeliverAll(Deliver(e, rs[0]), rs[1..])
  }

  function FeedData(e: Endpoint, p: seq<u8>): (r: (Endpoint, int))
    requires Shape(e) && |p| >= NC_HDR
    ensures Shape(r.0) && SameLayout(e, r.0)
  {
    if PacketId(p) != e.localId then (e, NC_ERR_PROTO)
    else
      var up := if e.isServer && e.state == Connecting then e.(state := Connected) else e;
      if up.state != Connected then (up, NC_OK)
      else (DeliverAll(ProcessAck(up, PacketAck(p)), ParseRecords(p[NC_HDR..])), NC_OK)
  }

  function FeedControl(e: Endpoint, p: seq<u8>): (r: (Endpoint, int))
    requires Shape(e) && |p| >= NC_HDR
    ensures Shape(r.0) && SameLayout(e, r.0) && AtMostRewinds(e, r.0)
    ensures r.0.now == e.now && r.0.ackPending == e.ackPending && r.0.txUnsent == e.txUnsent
  {
    var t := PacketType(p);
    if t == PKT_SYN then
      if !e.isServer || |p| < NC_HDR + 4 then (e, NC_ERR_PROTO)
      else
        var e1 := if e.state == Closed then
                    e.(remoteId := Rd32(p[NC_HDR..]), state := Connecting,
                       connectTimer := Add32(e.now, CONNECT_RETRY_MS), connectAttempts := 0)
                  else e;
        (if e1.state == Connecting then e1.(sendSynack := true) else e1, NC_OK)
    else if t == PKT_SYNACK then
      if e.isServer || PacketId(p) != e.localId || |p| < NC_HDR + 4 then (e, NC_ERR_PROTO)
      else
        (e.(remoteId := Rd32(p[NC_HDR..]), sendAck := true,
            state := if e.state == Connecting then Connected else e.state), NC_OK)
    else if t == PKT_ACK then
      if !e.isServer || PacketId(p) != e.localId then (e, NC_ERR_PROTO)
      else (if e.state == Connecting then e.(state := Connected) else e, NC_OK)
    else if t == PKT_FIN then
      if PacketId(p) != e.localId then (e, NC_ERR_PROTO)
      else (e.(state := Closed), NC_OK)
    else (e, NC_ERR_PROTO)
  }

  function Feed(e: Endpoint, p: seq<u8>): (r: (Endpoint, int))
    requires Shape(e)
    ensures Shape(r.0) && SameLayout(e, r.0)
  {
    if |p| < NC_HDR then (e, NC_ERR_PROTO)
    else
      var e1 := e.(lastRecv := e.now);
      if PacketType(p) == PKT_DATA then FeedData(e1, p) else FeedControl(e1, p)
  }

  // ----- nc_send_next -----

  function SlotRecord(s: Slot): Record {
    Record(s.chan, MT_REL, s.num, s.data)
  }

  function UnrelRecord(m: Msg): Record {
    Record(m.chan, MT_UNREL, 0, m.data)
  }

  /** The unsent window records that fit in `room` bytes, in order. */
  function PackRel(txw: seq<Slot>, unsent: u16, next: u16, room: int): (rs: seq<Record>)
    requires |txw| == NC_WINDOW && forall i :: 0 <= i < |txw| ==> Short(txw[i].data)
    ensures AllFit(rs) && |rs| <= Sub16(next, unsent)
    ensures 0 <= room ==> |EncodeRecords(rs)| <= room
    decreases Sub16(next, unsent)
  {
    var s := txw[unsent % NC_WINDOW];
    if unsent == next || NC_REC + |s.data| > room then []
    else [SlotRecord(s)] + PackRel(txw, Add16(unsent, 1), next, room - NC_REC - |s.data|)
  }

  /** How many of the queued unreliable messages fit in `room` bytes. */
  function PackUnrel(txu: seq<Msg>, room: int): (n: nat)
    ensures n <= |txu|
    decreases |txu|
  {
    if txu == [] || NC_REC + |txu[0].data| > room then 0
    else 1 + PackUnrel(txu[1..], room - NC_REC - |txu[0].data|)
  }

  function UnrelRecords(ms: seq<Msg>): (rs: seq<Record>)
    ensures |rs| == |ms|
    ensures forall i :: 0 <= i < |ms| ==> rs[i] == UnrelRecord(ms[i])
  {
    seq(|ms|, i requires 0 <= i < |ms| => UnrelRecord(ms[i]))
  }

  predicate HasControl(e: Endpoint) { e.sendSynack || e.sendAck || e.sendSyn }

  predicate HasData(e: Endpoint) {
    e.state == Connected && (e.txUnsent != e.txNext || e.txu != [] || e.ackPending)
  }

  function SendControl(e: Endpoint): (r: (Endpoint, seq<u8>))
    requires Shape(e) && HasControl(e)
    ensures Shape(r.0) && SameLayout(e, r.0) && NC_HDR <= |r.1| <= NC_MTU
  {
    var e1 := e.(lastSend := e.now);
    if e.sendSynack then
      (e1.(sendSynack := false), Header(e.remoteId, PKT_SYNACK, 0) + Wr32(e.localId))
    else if e.sendAck then
      (e1.(sendAck := false), Header(e.remoteId, PKT_ACK, 0))
    else
      (e1.(sendSyn := false), Header(0, PKT_SYN, 0) + Wr32(e.localId))
  }

  /** How much of a packet may be used. */
  type Capacity = n: int | NC_HDR <= n <= NC_MTU witness NC_HDR

  function RelToSend(e: Endpoint, cap: Capacity): (rs: seq<Record>)
    requires Shape(e)
    ensures AllFit(rs) && |rs| <= Sub16(e.txNext, e.txUnsent)
    ensures |EncodeRecords(rs)| <= cap - NC_HDR
  {
    PackRel(e.txw, e.txUnsent, e.txNext, cap - NC_HDR)
  }

  function UnrelToSend(e: Endpoint, cap: Capacity): (n: nat)
    requires Shape(e)
    ensures n <= |e.txu|
  {
    PackUnrel(e.txu, cap - NC_HDR - |EncodeRecords(RelToSend(e, cap))|)
  }

  function SendData(e: Endpoint, cap: Capacity): (r: (Endpoint, seq<u8>))
    requires Shape(e)
    ensures Shape(r.0) && SameLayout(e, r.0) && NC_HDR <= |r.1|
  {
    var rel := RelToSend(e, cap);
    var n := UnrelToSend(e, cap);
    (e.(txUnsent := Add16(e.txUnsent, |rel|),
        txTimer := if e.txBase != e.txNext && e.txTimer == 0 then Add32(e.now, RT_MS) else e.txTimer,
        txu := e.txu[n..], ackPending := false, lastSend := e.now),
     DataPacket(e.remoteId, e.rxNext, rel + UnrelRecords(e.txu[..n])))
  }

  /** The packet to put on the wire, or the empty sequence when there is none. */
  function SendNext(e: Endpoint, buflen: nat): (r: (Endpoint, seq<u8>))
    requires Shape(e)
    ensures Shape(r.0) && SameLayout(e, r.0)
    ensures r.1 == [] <==> buflen < NC_HDR || (!HasControl(e) && !HasData(e))
  {
    if buflen < NC_HDR then (e, [])
    else if HasControl(e) then SendControl(e)
    else if HasData(e) then SendData(e, if buflen < NC_MTU then buflen else NC_MTU)
    else (e, [])
  }

  /** The control packet that goes out next is one of those that carry an id. */
  predicate CarriesId(e: Endpoint) { e.sendSynack || (e.sendSyn && !e.sendAck) }

  lemma {:induction false} UnrelFits(ms: seq<Msg>, room: int)
    requires 0 <= room && forall i :: 0 <= i < |ms| ==> Short(ms[i].data)
    ensures AllFit(UnrelRecords(ms[..PackUnrel(ms, room)]))
    ensures |EncodeRecords(UnrelRecords(ms[..PackUnrel(ms, room)]))| <= room
    decreases |ms|
  {
    var n := PackUnrel(ms, room);
    if n > 0 {
      UnrelFits(ms[1..], room - NC_REC - |ms[0].data|);
      assert ms[..n] == [ms[0]] + ms[1..][..n - 1];
      assert UnrelRecords(ms[..n]) == [UnrelRecord(ms[0])] + UnrelRecords(ms[1..][..n - 1]);
    }
  }

  /** nc_send_next writes no more than `buflen` bytes exactly when a packet with an id in it
      is not due or the buffer has the 12 bytes that takes: only the header is checked for. */
  lemma StaysInside(e: Endpoint, buflen: nat)
    requires Shape(e)
    ensures |SendNext(e, buflen).1| <= buflen <==> buflen < NC_HDR || buflen >= NC_HDR + 4 || !CarriesId(e)
  {
    if buflen >= NC_HDR && !HasControl(e) {
      var cap := if buflen < NC_MTU then buflen else NC_MTU;
      hide SameLayout, EncodeRecords, PackRel, PackUnrel;
      DataFits(e, cap);
      hide SendData;
    }
  }

  lemma DataFits(e: Endpoint, cap: Capacity)
    requires Shape(e)
    ensures |SendData(e, cap).1| <= cap
  {
    hide SameLayout, EncodeRecords, PackRel, PackUnrel;
    var rel := RelToSend(e, cap);
    UnrelFits(e.txu, cap - NC_HDR - |EncodeRecords(rel)|);
    EncodeRecordsConcat(rel, UnrelRecords(e.txu[..UnrelToSend(e, cap)]));
  }

  /** A client that has begun to connect writes 12 bytes into a buffer of 8. */
  lemma ShortBuffer(e: Endpoint)
    requires Shape(e) && !e.isServer && !HasControl(e)
    ensures |SendNext(Connect(e), 8).1| == 12
  {}

  // ----- nc_service -----

  function Backoff(attempts: u16): (ms: int)
    ensures RT_MS <= ms <= RT_MAX_MS
  {
    var b := if attempts == 0 then RT_MS else if attempts == 1 then 2 * RT_MS
             else if attempts == 2 then 4 * RT_MS else 8 * RT_MS;
    if b > RT_MAX_MS then RT_MAX_MS else b
  }

  function ServiceConnecting(e: Endpoint): (r: (Endpoint, int))
    requires Shape(e)
    ensures Shape(r.0) && AtMostRewinds(e, r.0) && r.0.now == e.now
  {
    if e.now < e.connectTimer then (e, CONNECT_RETRY_MS)
    else
      var e1 := e.(connectAttempts := Add16(e.connectAttempts, 1));
      if e1.connectAttempts > CONNECT_RETRIES then (e1.(state := Closed), -1)
      else
        (e1.(sendSynack := e.isServer || e.sendSynack, sendSyn := !e.isServer || e.sendSyn,
             connectTimer := Add32(e.now, CONNECT_RETRY_MS)), CONNECT_RETRY_MS)
  }

  predicate TimerDue(e: Endpoint) {
    e.txBase != e.txNext && e.txTimer != 0 && e.now >= e.txTimer
  }

  /** The retransmit timer has run out: rewind, back off, or give up. */
  function Retransmit(e: Endpoint): (r: Endpoint)
    requires Shape(e)
    ensures Shape(r) && SameLayout(e, r)
    ensures r == e.(state := r.state, txAttempts := r.txAttempts, txUnsent := r.txUnsent, txTimer := r.txTimer)
    ensures e.now + RT_MAX_MS < 0x1_0000_0000 ==> AtMostRewinds(e, r)
    ensures e.state == Connected ==> r.state != Connecting
  {
    var e1 := e.(txAttempts := Add16(e.txAttempts, 1));
    if e1.txAttempts > RT_ATTEMPTS then e1.(state := Closed)
    else e1.(txUnsent := e.txBase, txTimer := Add32(e.now, Backoff(e1.txAttempts)))
  }

  function Resend(e: Endpoint): (r: Endpoint)
    requires Shape(e) && e.state == Connected
    ensures Shape(r) && SameLayout(e, r) && r.state != Connecting
    ensures r == e.(state := r.state, txAttempts := r.txAttempts, txUnsent := r.txUnsent, txTimer := r.txTimer)
    ensures e.now + RT_MAX_MS < 0x1_0000_0000 ==> AtMostRewinds(e, r)
  {
    if TimerDue(e) then Retransmit(e) else e
  }

  function ServiceConnected(e: Endpoint): (r: (Endpoint, int))
    requires Shape(e) && e.state == Connected
    ensures Shape(r.0) && SameLayout(e, r.0)
    ensures r.0 == e.(state := r.0.state, txAttempts := r.0.txAttempts, txUnsent := r.0.txUnsent,
                      txTimer := r.0.txTimer, ackPending := r.0.ackPending)
    ensures r.0.state != Connecting
    ensures e.now + RT_MAX_MS < 0x1_0000_0000 ==> AtMostRewinds(e, r.0)
  {
    if Sub32(e.now, e.lastRecv) > IDLE_MS then (e.(state := Closed), -1)
    else
      var e1 := Resend(e);
      if e1.state == Closed then (e1, -1)
      else (e1.(ackPending := e.ackPending || Sub32(e.now, e.lastSend) > KEEPALIVE_MS), RT_MS)
  }

  function Service(e: Endpoint, now: u32): (r: (Endpoint, int))
    requires Shape(e)
    ensures Shape(r.0) && SameLayout(e, r.0) && r.0.now == now
    ensures now + RT_MAX_MS < 0x1_0000_0000 ==> AtMostRewinds(e, r.0)
  {
    var e1 := e.(now := now);
    match e1.state
    case Connecting => ServiceConnecting(e1)
    case Connected => ServiceConnected(e1)
    case Closed => (e1, -1)
  }
}
