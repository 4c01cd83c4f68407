/** One channel of netchan-v2 and the message-buffer pool it borrows from: every channel
    operation as a function of the pool and the channel. */
module V2Channel {
  import opened Bytes

  const SLOTS := 64
  const FRAG_SLOTS := 4
  const MAX_FRAGS := 32
  const BUFS := 64
  const MAX_MSG := 2048
  const NOBUF := -1
  const MAX_RT_MS := 1000
  const MAX_RT_ATTEMPTS := 5
  /** Packet header and DATA frame header together. */
  const OVERHEAD := 15

  const RELIABLE := 0
  const UNRELIABLE := 1

  type Message = seq<u8>

  /** `free` is the stack of available indices, `store` the buffers. `overrun` records that a
      compaction has written past the end of its buffer, after which nothing is known of
      the memory behind it. */
  datatype Pool = Pool(free: seq<int>, store: seq<seq<u8>>, overrun: bool)

  datatype Out = Out(num: u16, buf: int, len: nat, sentMs: u32, attempts: nat, fragSent: nat, fragTotal: nat,
      active: bool)
  datatype Entry = Entry(buf: int, len: nat)
  datatype Reorder = Reorder(num: u16, buf: int, len: nat, valid: bool)

  /** `mask` is the set of bits set in the bitmask. */
  datatype Frag = Frag(num: u16, total: nat, have: nat, mask: set<nat>, buf: int, offsets: seq<nat>, active: bool)

  /** `written`, `arrived`, `kept` and `taken` are history: the messages accepted for sending,
      the messages put on the receive queue, for each number in turn whether the queue took
      it, and how many messages were read. */
  datatype Chan = Chan(
    kind: nat, sender: bool, state: nat,
    sendSeq: u16, sendWindow: u32, inFlight: u32, out: seq<Out>, outHead: nat, outTail: nat,
    recvSeq: u16, recvWindow: u32, recvBuffered: u32, rq: seq<Entry>, rqHead: nat, rqTail: nat,
    reorder: seq<Reorder>, frags: seq<Frag>, needAck: bool, ackSeq: u16, needWindow: bool,
    written: seq<Message>, arrived: seq<Message>, kept: seq<bool>, taken: nat)

  const NO_OUT := Out(0, NOBUF, 0, 0, 0, 0, 0, false)
  const NO_ENTRY := Entry(NOBUF, 0)
  const NO_REORDER := Reorder(0, NOBUF, 0, false)

  function NoFrag(): Frag { Frag(0, 0, 0, {}, NOBUF, Repeat(0, MAX_FRAGS), false) }

  function Repeat<T>(x: T, n: nat): (r: seq<T>)
    ensures |r| == n && forall i :: 0 <= i < n ==> r[i] == x
  {
    seq(n, i => x)
  }

  predicate Shaped(ch: Chan) {
    && |ch.out| == SLOTS && ch.outHead < SLOTS && ch.outTail < SLOTS
    && |ch.rq| == SLOTS && ch.rqHead < SLOTS && ch.rqTail < SLOTS
    && |ch.reorder| == SLOTS && |ch.frags| == FRAG_SLOTS
    && forall i :: 0 <= i < FRAG_SLOTS ==> |ch.frags[i].offsets| == MAX_FRAGS
  }

  function Wrap32(x: int): u32 { x % 0x1_0000_0000 }

  function Next16(n: u16): u16 { if n == 0xFFFF then 0 else n + 1 }

  /** (int16_t)(a - b). */
  function Diff16(a: u16, b: u16): (d: int)
    ensures -0x8000 <= d < 0x8000
  {
    var d := a - b;
    if d >= 0x8000 then d - 0x1_0000 else if d < -0x8000 then d + 0x1_0000 else d
  }

  function NextSlot(i: nat): (r: nat)
    requires i < SLOTS
    ensures r < SLOTS
  {
    if i + 1 == SLOTS then 0 else i + 1
  }

  // ----- the pool -----

  function PoolInit(): (p: Pool)
    ensures |p.free| == BUFS && forall k :: 0 <= k < BUFS ==> p.free[k] == k
    ensures |p.store| == BUFS && forall k :: 0 <= k < BUFS ==> p.store[k] == Repeat(0, MAX_MSG)
  {
    Pool(seq(BUFS, i => i), Repeat(Repeat(0, MAX_MSG), BUFS), false)
  }

  function PoolGet(p: Pool): (r: (Pool, int)) {
    if |p.free| == 0 then (p, NOBUF)
    else (p.(free := p.free[..|p.free| - 1]), p.free[|p.free| - 1])
  }

  function PoolPut(p: Pool, b: int): Pool {
    if b == NOBUF then p else p.(free := p.free + [b])
  }

  function Buffer(p: Pool, b: int): seq<u8> { if 0 <= b < |p.store| then p.store[b] else [] }

  /** The first `n` bytes of buffer `b`. */
  function Content(p: Pool, b: int, n: nat): seq<u8> { Part(Buffer(p, b), 0, n) }

  function Part(s: seq<u8>, at: nat, n: nat): seq<u8> {
    if at + n <= |s| then s[at..at + n] else []
  }

  /** memcpy or memmove of `data` into `s` at offset `at`. */
  function Blit(s: seq<u8>, at: nat, data: seq<u8>): (r: seq<u8>)
    ensures |r| == |s|
  {
    if at + |data| <= |s| then s[..at] + data + s[at + |data|..] else s
  }

  function Copy(p: Pool, b: int, at: nat, data: seq<u8>): Pool {
    if 0 <= b < |p.store| then p.(store := p.store[b := Blit(p.store[b], at, data)]) else p
  }

  // ----- receiving -----

  /** chan_recv_enqueue: refused when the ring is full, the message too big or the pool empty. */
  function Enqueue(p: Pool, ch: Chan, data: Message): (r: (Pool, Chan, bool))
    requires Shaped(ch)
    ensures Shaped(r.1)
    ensures r.1 == ch.(rq := r.1.rq, rqTail := r.1.rqTail, recvBuffered := r.1.recvBuffered, arrived := r.1.arrived)
    ensures !r.2 ==> r.0 == p && r.1 == ch
  {
    var next := NextSlot(ch.rqTail);
    if next == ch.rqHead || |data| > MAX_MSG then (p, ch, false)
    else
      var (p1, b) := PoolGet(p);
      if b == NOBUF then (p, ch, false)
      else
        (Copy(p1, b, 0, data),
         ch.(rq := ch.rq[ch.rqTail := Entry(b, |data|)], rqTail := next,
             recvBuffered := Wrap32(ch.recvBuffered + |data|), arrived := ch.arrived + [data]),
         true)
  }

  /** Enqueue the message whose number is next, and count it whether or not it was refused. */
  function Accept(p: Pool, ch: Chan, data: Message): (r: (Pool, Chan))
    requires Shaped(ch)
    ensures Shaped(r.1)
    ensures r.1 == ch.(rq := r.1.rq, rqTail := r.1.rqTail, recvBuffered := r.1.recvBuffered,
                       arrived := r.1.arrived, kept := r.1.kept, recvSeq := Next16(ch.recvSeq))
  {
    var (p1, c1, ok) := Enqueue(p, ch, data);
    (p1, c1.(recvSeq := Next16(ch.recvSeq), kept := ch.kept + [ok]))
  }

  /** The slot the deliver loop looks at, when it is the awaited one. */
  predicate Awaited(ch: Chan)
    requires Shaped(ch)
  {
    var r := ch.reorder[ch.recvSeq % SLOTS];
    r.valid && r.num == ch.recvSeq
  }

  /** One turn of the deliver loop. */
  function DeliverOne(p: Pool, ch: Chan): (r: (Pool, Chan))
    requires Shaped(ch) && Awaited(ch)
    ensures Shaped(r.1)
    ensures r.1 == ch.(rq := r.1.rq, rqTail := r.1.rqTail, recvBuffered := r.1.recvBuffered, arrived := r.1.arrived,
                       kept := r.1.kept, recvSeq := Next16(ch.recvSeq),
                       reorder := ch.reorder[ch.recvSeq % SLOTS
                           := ch.reorder[ch.recvSeq % SLOTS].(buf := NOBUF, valid := false)])
  {
    var slot := ch.recvSeq % SLOTS;
    var e := ch.reorder[slot];
    var (p1, c1) := Accept(p, ch, Content(p, e.buf, e.len));
    (PoolPut(p1, e.buf), c1.(reorder := c1.reorder[slot := e.(buf := NOBUF, valid := false)]))
  }

  function Waiting(rs: seq<Reorder>): nat {
    if rs == [] then 0 else Waiting(rs[..|rs| - 1]) + if rs[|rs| - 1].valid then 1 else 0
  }

  lemma {:induction false} WaitingClears(rs: seq<Reorder>, i: nat, r: Reorder)
    requires i < |rs| && rs[i].valid && !r.valid
    ensures Waiting(rs[i := r]) == Waiting(rs) - 1
  {
    var n := |rs| - 1;
    if i == n {
      assert rs[i := r][..n] == rs[..n];
    } else {
      assert rs[i := r][..n] == rs[..n][i := r];
      WaitingClears(rs[..n], i, r);
    }
  }

  /** chan_deliver_reordered. */
  function Deliver(p: Pool, ch: Chan): (r: (Pool, Chan))
    requires Shaped(ch)
    ensures Shaped(r.1)
    ensures r.1 == ch.(rq := r.1.rq, rqTail := r.1.rqTail, recvBuffered := r.1.recvBuffered, arrived := r.1.arrived,
                       kept := r.1.kept, recvSeq := r.1.recvSeq, reorder := r.1.reorder)
    decreases Waiting(ch.reorder)
  {
    if !Awaited(ch) then (p, ch)
    else
      var (p1, c1) := DeliverOne(p, ch);
      WaitingClears(ch.reorder, ch.recvSeq % SLOTS, c1.reorder[ch.recvSeq % SLOTS]);
      Deliver(p1, c1)
  }

  /** A reliable message ahead of its turn waits in its reorder slot, if that is empty. */
  function Hold(p: Pool, ch: Chan, num: u16, data: Message): (r: (Pool, Chan))
    requires Shaped(ch)
    ensures Shaped(r.1)
    ensures r.1 == ch.(reorder := r.1.reorder)
  {
    var diff := Diff16(num, ch.recvSeq);
    var slot := num % SLOTS;
    if !(0 < diff < SLOTS) || ch.reorder[slot].valid || |data| > MAX_MSG then (p, ch)
    else
      var (p1, b) := PoolGet(p);
      if b == NOBUF then (p, ch)
      else (Copy(p1, b, 0, data), ch.(reorder := ch.reorder[slot := Reorder(num, b, |data|, true)]))
  }

  /** A whole reliable message, unfragmented or reassembled. */
  function Arrive(p: Pool, ch: Chan, num: u16, data: Message): (r: (Pool, Chan))
    requires Shaped(ch)
    ensures Shaped(r.1)
    ensures r.1 == ch.(rq := r.1.rq, rqTail := r.1.rqTail, recvBuffered := r.1.recvBuffered, arrived := r.1.arrived,
                       kept := r.1.kept, recvSeq := r.1.recvSeq, reorder := r.1.reorder)
  {
    if num == ch.recvSeq then
      var (p1, c1) := Accept(p, ch, data);
      Deliver(p1, c1)
    else Hold(p, ch, num, data)
  }

  // ----- fragments -----

  /** frag_find: the first active slot for this number, or FRAG_SLOTS. */
  function FragFind(fs: seq<Frag>, num: u16, i: nat): (r: nat)
    requires i <= |fs|
    ensures i <= r <= |fs|
    ensures r < |fs| ==> fs[r].active && fs[r].num == num
    ensures forall k :: i <= k < r ==> !(fs[k].active && fs[k].num == num)
    decreases |fs| - i
  {
    if i == |fs| || (fs[i].active && fs[i].num == num) then i else FragFind(fs, num, i + 1)
  }

  /** The first slot not in use, or FRAG_SLOTS. */
  function FragIdle(fs: seq<Frag>, i: nat): (r: nat)
    requires i <= |fs|
    ensures i <= r <= |fs|
    ensures r < |fs| ==> !fs[r].active
    ensures forall k :: i <= k < r ==> fs[k].active
    decreases |fs| - i
  {
    if i == |fs| || !fs[i].active then i else FragIdle(fs, i + 1)
  }

  /** frag_find, else frag_alloc: the slot that will take the fragment, or FRAG_SLOTS. */
  function FragSlot(p: Pool, ch: Chan, num: u16, total: nat): (r: (Pool, Chan, nat))
    requires Shaped(ch)
    ensures Shaped(r.1) && r.2 <= FRAG_SLOTS
    ensures r.1 == ch.(frags := r.1.frags)
    ensures r.2 < FRAG_SLOTS ==> r.1.frags[r.2].active && r.1.frags[r.2].num == num
  {
    var i := FragFind(ch.frags, num, 0);
    if i < FRAG_SLOTS then (p, ch, i)
    else if total > MAX_FRAGS then (p, ch, FRAG_SLOTS)
    else
      var j := FragIdle(ch.frags, 0);
      if j == FRAG_SLOTS then (p, ch, FRAG_SLOTS)
      else
        var (p1, b) := PoolGet(p);
        if b == NOBUF then (p, ch, FRAG_SLOTS)
        else (p1, ch.(frags := ch.frags[j := Frag(num, total, 0, {}, b, Repeat(0, MAX_FRAGS), true)]), j)
  }

  /** Where fragment `i` starts. */
  function Offset(i: nat, fp: nat): nat { i * fp }

  predicate Fresh(f: Frag, idx: nat, n: nat, fp: nat) {
    idx < f.total && idx !in f.mask && Offset(idx, fp) + n <= MAX_MSG
  }

  /** Write one fragment into its place. */
  function FragWrite(f: Frag, idx: nat, n: nat): (r: Frag)
    requires |f.offsets| == MAX_FRAGS
    ensures |r.offsets| == MAX_FRAGS
    ensures r == f.(offsets := r.offsets, mask := r.mask, have := r.have)
  {
    f.(offsets := if idx < MAX_FRAGS then f.offsets[idx := n] else f.offsets, mask := f.mask + {idx},
        have := f.have + 1)
  }

  /** The compaction loop: move each fragment down to the end of the one before. */
  function Compact(s: seq<u8>, fp: nat, sizes: seq<nat>, total: nat, i: nat, pos: nat): (r: (seq<u8>, nat))
    ensures |r.0| == |s|
    decreases total - i
  {
    if i >= total || i >= |sizes| then (s, pos)
    else
      Compact(if pos == Offset(i, fp) then s else Blit(s, pos, Part(s, Offset(i, fp), sizes[i])), fp, sizes, total,
          i + 1, pos + sizes[i])
  }

  /** A whole message goes to the queue, in its turn if the channel is reliable. */
  function HandOn(p: Pool, ch: Chan, num: u16, data: Message): (r: (Pool, Chan))
    requires Shaped(ch)
    ensures Shaped(r.1)
    ensures r.1 == ch.(rq := r.1.rq, rqTail := r.1.rqTail, recvBuffered := r.1.recvBuffered, arrived := r.1.arrived,
                       kept := r.1.kept, recvSeq := r.1.recvSeq, reorder := r.1.reorder)
  {
    if ch.kind == UNRELIABLE then (var (a, b, _) := Enqueue(p, ch, data); (a, b)) else Arrive(p, ch, num, data)
  }

  /** How many bytes the first `n` fragments have. */
  function Sum(sizes: seq<nat>, n: nat): nat {
    if n == 0 || n > |sizes| then 0 else Sum(sizes, n - 1) + sizes[n - 1]
  }

  /** A complete message fits its buffer. */
  predicate Inside(f: Frag) { Sum(f.offsets, f.total) <= MAX_MSG }

  /** All fragments are in: compact, hand the message on, free the slot. */
  function FragDone(p: Pool, ch: Chan, fp: nat, i: nat): (r: (Pool, Chan))
    requires Shaped(ch) && i < FRAG_SLOTS
    ensures Shaped(r.1)
    ensures r.1 == ch.(rq := r.1.rq, rqTail := r.1.rqTail, recvBuffered := r.1.recvBuffered, arrived := r.1.arrived,
                       kept := r.1.kept, recvSeq := r.1.recvSeq, reorder := r.1.reorder,
                           frags := ch.frags[i := NoFrag()])
  {
    var f := ch.frags[i];
    var (s, n) := Compact(Buffer(p, f.buf), fp, f.offsets, f.total, 0, 0);
    var p1 := Copy(p, f.buf, 0, s).(overrun := p.overrun || !Inside(f));
    var (p2, c2) := HandOn(p1, ch, f.num, Part(s, 0, n));
    (PoolPut(p2, f.buf), c2.(frags := c2.frags[i := NoFrag()]))
  }

  /** A fragment of a message. */
  function Fragment(p: Pool, ch: Chan, fp: nat, num: u16, idx: nat, total: nat, data: Message): (r: (Pool, Chan))
    requires Shaped(ch)
    ensures Shaped(r.1)
    ensures r.1 == ch.(rq := r.1.rq, rqTail := r.1.rqTail, recvBuffered := r.1.recvBuffered, arrived := r.1.arrived,
                       kept := r.1.kept, recvSeq := r.1.recvSeq, reorder := r.1.reorder, frags := r.1.frags)
  {
    var (p1, c1, i) := FragSlot(p, ch, num, total);
    if i == FRAG_SLOTS || !Fresh(c1.frags[i], idx, |data|, fp) then (p1, c1)
    else
      var f := FragWrite(c1.frags[i], idx, |data|);
      var p2 := Copy(p1, f.buf, Offset(idx, fp), data);
      var c2 := c1.(frags := c1.frags[i := f]);
      if f.have == f.total then FragDone(p2, c2, fp, i) else (p2, c2)
  }

  /** The fragment does not complete a message that is longer than its buffer. */
  predicate Contained(p: Pool, ch: Chan, fp: nat, num: u16, idx: nat, total: nat, data: Message)
    requires Shaped(ch)
  {
    var (p1, c1, i) := FragSlot(p, ch, num, total);
    i < FRAG_SLOTS && Fresh(c1.frags[i], idx, |data|, fp) ==>
      var f := FragWrite(c1.frags[i], idx, |data|);
      f.have == f.total ==> Inside(f)
  }

  /** process_data on a receiving channel. */
  function Data(p: Pool, ch: Chan, fp: nat, num: u16, idx: nat, total: nat, data: Message): (r: (Pool, Chan))
    requires Shaped(ch)
    ensures Shaped(r.1)
    ensures r.1 == ch.(rq := r.1.rq, rqTail := r.1.rqTail, recvBuffered := r.1.recvBuffered, arrived := r.1.arrived,
                       kept := r.1.kept, recvSeq := r.1.recvSeq, reorder := r.1.reorder, frags := r.1.frags,
                       needAck := r.1.needAck, ackSeq := r.1.ackSeq)
  {
    if ch.kind == UNRELIABLE then
      if total <= 1 then (var (a, b, _) := Enqueue(p, ch, data); (a, b))
      else Fragment(p, ch, fp, num, idx, total, data)
    else
      var (p1, c1) := if total <= 1 then Arrive(p, ch, num, data) else Fragment(p, ch, fp, num, idx, total, data);
      (p1, c1.(needAck := true, ackSeq := if c1.recvSeq > 0 then c1.recvSeq - 1 else 0))
  }

  /** netchan_chan_read into `room` bytes; no bytes when nothing is queued. */
  function Read(p: Pool, ch: Chan, room: nat): (r: (Pool, Chan, Message))
    requires Shaped(ch)
    ensures Shaped(r.1)
    ensures r.1 == ch.(rq := r.1.rq, rqHead := r.1.rqHead, recvBuffered := r.1.recvBuffered,
                       needWindow := r.1.needWindow, taken := r.1.taken)
  {
    if ch.sender || ch.rqHead == ch.rqTail then (p, ch, [])
    else
      var e := ch.rq[ch.rqHead];
      var n := if e.len < room then e.len else room;
      (PoolPut(p, e.buf),
       ch.(rq := ch.rq[ch.rqHead := NO_ENTRY], rqHead := NextSlot(ch.rqHead),
           recvBuffered := Wrap32(ch.recvBuffered - n), needWindow := true, taken := ch.taken + 1),
       Content(p, e.buf, n))
  }

  // ----- sending -----

  function Pieces(len: nat, fp: nat): nat
    requires fp > 0
  {
    (len + fp - 1) / fp
  }

  datatype Wrote = Sent(n: nat) | Refused | Closed | TooBig | Flow | Again | NoMem

  /** netchan_chan_write. */
  function Write(p: Pool, ch: Chan, fp: nat, data: Message): (r: (Pool, Chan, Wrote))
    requires Shaped(ch) && fp > 0
    ensures Shaped(r.1)
    ensures r.1 == ch.(out := r.1.out, outTail := r.1.outTail, sendSeq := r.1.sendSeq, inFlight := r.1.inFlight,
            written := r.1.written)
  {
    if !ch.sender then (p, ch, Refused)
    else if ch.state == 3 then (p, ch, Closed)
    else if |data| == 0 then (p, ch, Sent(0))
    else if |data| > MAX_MSG then (p, ch, TooBig)
    else if ch.kind == RELIABLE && ch.state == 1 && ch.inFlight + |data| > ch.sendWindow then (p, ch, Flow)
    else if NextSlot(ch.outTail) == ch.outHead then (p, ch, Again)
    else
      var (p1, b) := PoolGet(p);
      if b == NOBUF then (p, ch, NoMem)
      else
        var p2 := Copy(p1, b, 0, data);
        var total := Pieces(|data|, fp) % 0x100;
        var total1 := if total == 0 then 1 else total;
        var c1 := ch.(sendSeq := Next16(ch.sendSeq));
        if total1 > MAX_FRAGS then
          (PoolPut(p2, b), c1.(out := c1.out[ch.outTail := NO_OUT]), TooBig)
        else
          (p2,
           c1.(out := c1.out[ch.outTail := Out(ch.sendSeq, b, |data|, 0, 0, 0, total1, true)],
               inFlight := if ch.kind == RELIABLE then Wrap32(ch.inFlight + |data|) else ch.inFlight,
               outTail := NextSlot(ch.outTail), written := ch.written + [data]),
           Sent(|data|))
  }

  predicate Acked(o: Out, a: u16) { o.active && Diff16(o.num, a) <= 0 }

  /** The acknowledgement loop from slot `i` on. */
  function AckFrom(p: Pool, ch: Chan, a: u16, i: nat): (r: (Pool, Chan))
    requires Shaped(ch) && i <= SLOTS
    ensures Shaped(r.1)
    ensures r.1 == ch.(out := r.1.out, inFlight := r.1.inFlight)
    decreases SLOTS - i
  {
    if i == SLOTS then (p, ch)
    else if !Acked(ch.out[i], a) then AckFrom(p, ch, a, i + 1)
    else
      var (p1, c1) := Release(p, ch, i);
      AckFrom(p1, c1.(inFlight := Wrap32(ch.inFlight - ch.out[i].len)), a, i + 1)
  }

  /** Give an outgoing slot's buffer back. */
  function Release(p: Pool, ch: Chan, i: nat): (r: (Pool, Chan))
    requires Shaped(ch) && i < SLOTS
    ensures Shaped(r.1)
    ensures r.1 == ch.(out := ch.out[i := ch.out[i].(buf := NOBUF, active := false)])
  {
    (PoolPut(p, ch.out[i].buf), ch.(out := ch.out[i := ch.out[i].(buf := NOBUF, active := false)]))
  }

  /** Advance the head past cleared slots. */
  function Advance(out: seq<Out>, head: nat, tail: nat): (r: nat)
    requires |out| == SLOTS && head < SLOTS && tail < SLOTS
    ensures r < SLOTS
    decreases Distance(head, tail)
  {
    if head == tail || out[head].active then head else Advance(out, NextSlot(head), tail)
  }

  /** Steps from one ring index to another. */
  function Distance(from: nat, to: nat): (d: nat)
    requires from < SLOTS && to < SLOTS
    ensures d < SLOTS && (d == 0 <==> from == to)
  {
    if to >= from then to - from else to + SLOTS - from
  }

  /** process_ack on a sending channel. */
  function Ack(p: Pool, ch: Chan, a: u16): (r: (Pool, Chan))
    requires Shaped(ch)
    ensures Shaped(r.1)
    ensures r.1 == ch.(out := r.1.out, inFlight := r.1.inFlight, outHead := r.1.outHead)
  {
    var (p1, c1) := AckFrom(p, ch, a, 0);
    (p1, c1.(outHead := Advance(c1.out, c1.outHead, c1.outTail)))
  }

  /** chan_next_sendable from ring index `i`: the slot, or SLOTS. */
  function NextSendable(ch: Chan, i: nat): (r: nat)
    requires Shaped(ch) && i < SLOTS
    ensures r <= SLOTS
    ensures r < SLOTS ==> ch.out[r].active && ch.out[r].fragSent < ch.out[r].fragTotal
    decreases Distance(i, ch.outTail)
  {
    if i == ch.outTail then SLOTS
    else if ch.out[i].active && ch.out[i].fragSent < ch.out[i].fragTotal then i
    else NextSendable(ch, NextSlot(i))
  }

  /** How long the next fragment of a slot is. */
  function PieceLen(o: Out, fp: nat): nat {
    if o.len < Offset(o.fragSent, fp) then 0
    else if o.len - Offset(o.fragSent, fp) > fp then fp else o.len - Offset(o.fragSent, fp)
  }

  /** The payload of the next fragment of a slot. */
  function PieceOf(p: Pool, o: Out, fp: nat): Message {
    Part(Buffer(p, o.buf), Offset(o.fragSent, fp), PieceLen(o, fp))
  }

  /** A slot after one of its fragments went out. */
  function Sending(o: Out, now: u32): Out {
    o.(fragSent := o.fragSent + 1, sentMs := now, attempts := if o.attempts == 0 then 1 else o.attempts)
  }

  /** An unreliable message is done once transmitted: free its slot and move the head. */
  function Discharge(p: Pool, ch: Chan, i: nat): (r: (Pool, Chan))
    requires Shaped(ch) && i < SLOTS
    ensures Shaped(r.1)
    ensures r.1 == ch.(out := ch.out[i := ch.out[i].(buf := NOBUF, active := false)], outHead := r.1.outHead)
  {
    var (p1, c1) := Release(p, ch, i);
    (p1, c1.(outHead := Advance(c1.out, c1.outHead, c1.outTail)))
  }

  /** What sending a fragment of slot `i` changes. */
  function Transmit(p: Pool, ch: Chan, i: nat, now: u32): (r: (Pool, Chan))
    requires Shaped(ch) && i < SLOTS
    ensures Shaped(r.1)
    ensures r.1 == ch.(out := r.1.out, outHead := r.1.outHead)
  {
    var o := Sending(ch.out[i], now);
    var c1 := ch.(out := ch.out[i := o]);
    if o.fragSent >= o.fragTotal && ch.kind == UNRELIABLE then Discharge(p, c1, i) else (p, c1)
  }

  function Timeout(rt: nat, attempts: nat): nat {
    var t := Wrap32(if attempts <= 1 then rt else if attempts == 2 then 2 * rt else if attempts == 3 then 4 * rt
                    else if attempts == 4 then 8 * rt else 16 * rt);
    if t > MAX_RT_MS then MAX_RT_MS else t
  }

  /** The retransmission loop from slot `j` on: re-arm what has timed out, give the channel
      up when a slot has used its attempts. */
  function Retransmit(ch: Chan, rt: nat, now: u32, j: nat): (r: Chan)
    requires Shaped(ch) && j <= SLOTS
    ensures Shaped(r)
    ensures r == ch.(out := r.out, state := r.state)
    decreases SLOTS - j
  {
    if j == SLOTS then ch
    else
      var o := ch.out[j];
      if !o.active || o.sentMs == 0 || Wrap32(now - o.sentMs) < Timeout(rt, o.attempts)
          then Retransmit(ch, rt, now, j + 1)
      else if o.attempts >= MAX_RT_ATTEMPTS then ch.(state := 3)
      else Retransmit(ch.(out := ch.out[j := o.(fragSent := 0, sentMs := now, attempts := o.attempts + 1)]), rt, now,
          j + 1)
  }

  /** chan_new. */
  function NewChan(kind: nat, sender: bool, state: nat, window: u32): (r: Chan)
    ensures Shaped(r)
  {
    Chan(kind, sender, state, 0, 0, 0, Repeat(NO_OUT, SLOTS), 0, 0,
         0, window, 0, Repeat(NO_ENTRY, SLOTS), 0, 0,
         Repeat(NO_REORDER, SLOTS), Repeat(NoFrag(), FRAG_SLOTS), false, 0, false,
         [], [], [], 0)
  }
}
