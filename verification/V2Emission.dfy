/** Calling netchan_send_next often enough puts every fragment of a message on the wire, and
    from the wire the message is put together again. */
module V2Emission {
  import opened Bytes
  import opened V2Channel
  import opened V2Pool
  import opened V2Fragments
  import opened V2Sender
  import opened V2Conn

  const HEADER := 7

  /** No acknowledgement or window update is waiting to go out. */
  predicate Quiet(c: Conn) { forall id :: id in c.chans ==> !c.chans[id].needAck && !c.chans[id].needWindow }

  predicate Idle(ch: Chan)
    requires Shaped(ch)
  {
    !ch.sender || ch.state != 1 || NextSendable(ch, ch.outHead) == SLOTS
  }

  /** Channel `id` is open for sending and no channel before it has anything to send. */
  predicate Foremost(c: Conn, id: u8) {
    && ConnShaped(c) && id in c.chans && c.chans[id].sender && c.chans[id].state == 1
    && forall k :: k in c.chans && k < id ==> Idle(c.chans[k])
  }

  lemma {:induction false} FlushQuiet(c: Conn, i: nat, pos: nat, mtu: nat)
    requires ConnShaped(c) && Quiet(c)
    ensures FlushFrom(c, i, pos, mtu) == (c, pos, [])
    decreases 256 - i
  {
    hide Shaped;
    if i >= 256 || pos + 6 > mtu {
    } else if i !in c.chans {
      FlushQuiet(c, i + 1, pos, mtu);
    } else {
      assert FlushAck(c.chans[i], i, pos, mtu) == (c.chans[i], pos, []);
      assert FlushWindow(c.chans[i], i, pos, mtu) == (c.chans[i], pos, []);
      assert With(c, i, c.pool, c.chans[i]) == c;
      hide FlushAck, FlushWindow;
      FlushQuiet(c, i + 1, pos, mtu);
      var none: seq<Frame> := [];
      assert none + none + none == none;
    }
  }

  lemma {:induction false} SkipsIdle(c: Conn, i: nat, id: u8, pos: nat, mtu: nat, now: u32)
    requires Foremost(c, id) && i <= id && pos + 9 <= mtu
    ensures DataFrom(c, i, pos, mtu, now) == DataFrom(c, id, pos, mtu, now)
    decreases id - i
  {
    hide NextSendable, Transmit, PieceLen, FrameOf, Shaped;
    if i < id {
      assert i in c.chans ==> Idle(c.chans[i]);
      SkipsIdle(c, i + 1, id, pos, mtu, now);
    }
  }

  /** Sending on channels from `i` on leaves those before alone, and writes no buffer. */
  lemma {:induction false} SendLeaves(c: Conn, i: nat, pos: nat, mtu: nat, now: u32)
    requires ConnShaped(c) && Quiet(c)
    ensures var c' := DataFrom(c, i, pos, mtu, now).0;
      && c'.chans.Keys == c.chans.Keys && c'.pool.store == c.pool.store && c'.mtu == c.mtu && Quiet(c')
      && forall k :: k in c.chans && k < i ==> c'.chans[k] == c.chans[k]
    decreases 256 - i
  {
    hide FrameOf, PieceLen, NextSendable;
    if i >= 256 || pos + 9 > mtu {
    } else if i !in c.chans || !c.chans[i].sender || c.chans[i].state != 1 {
      SendLeaves(c, i + 1, pos, mtu, now);
    } else {
      var ch := c.chans[i];
      var j := NextSendable(ch, ch.outHead);
      if j == SLOTS {
        SendLeaves(c, i + 1, pos, mtu, now);
      } else {
        var n := PieceLen(ch.out[j], Payload(c));
        if pos + 8 + n <= mtu {
          var (p, ch1) := Transmit(c.pool, ch, j, now);
          assert p.store == c.pool.store;
          hide Transmit, Shaped;
          SendLeaves(With(c, i, p, ch1), i + 1, pos + 8 + n, mtu, now);
        }
      }
    }
  }

  /** One call sends the next fragment of the foremost channel. */
  lemma SendsNext(c: Conn, id: u8, now: u32)
    requires Foremost(c, id) && Quiet(c) && NextSendable(c.chans[id], c.chans[id].outHead) < SLOTS
    ensures var j := NextSendable(c.chans[id], c.chans[id].outHead);
            var (c', fs) := SendNext(c, HEADER, c.mtu, now);
      && FrameOf(c, id, j) in fs && Quiet(c') && Foremost(c', id) && c'.mtu == c.mtu
      && c'.pool.store == c.pool.store && c'.chans[id] == Transmit(c.pool, c.chans[id], j, now).1
  {
    FlushQuiet(c, 0, HEADER, c.mtu);
    var ch := c.chans[id];
    var j := NextSendable(ch, ch.outHead);
    var n := PieceLen(ch.out[j], Payload(c));
    assert n <= Payload(c);
    SkipsIdle(c, 0, id, HEADER, c.mtu, now);
    var (p, ch1) := Transmit(c.pool, ch, j, now);
    assert p.store == c.pool.store && ch1 == ch.(out := ch1.out, outHead := ch1.outHead);
    hide NextSendable, PieceLen, FrameOf, Transmit, FlushFrom;
    var k := With(c, id, p, ch1);
    SendLeaves(k, id + 1, HEADER + 8 + n, c.mtu, now);
    var (c', pos', fs) := DataFrom(k, id + 1, HEADER + 8 + n, c.mtu, now);
    assert DataFrom(c, id, HEADER, c.mtu, now) == (c', pos', [FrameOf(c, id, j)] + fs);
    hide DataFrom;
    assert ([FrameOf(c, id, j)] + fs)[0] == FrameOf(c, id, j);
  }

  // ----- how much there is to send -----

  function SlotOwes(o: Out): nat { if o.active && o.fragSent < o.fragTotal then o.fragTotal - o.fragSent else 0 }

  function SlotsOwe(out: seq<Out>): nat {
    if out == [] then 0 else SlotsOwe(out[..|out| - 1]) + SlotOwes(out[|out| - 1])
  }

  function Flag(b: bool): nat { if b then 1 else 0 }

  /** The fragments an open channel has left, and its pending control frames. */
  function ChanOwes(ch: Chan): nat {
    (if ch.sender && ch.state == 1 then SlotsOwe(ch.out) else 0) + Flag(ch.needAck) + Flag(ch.needWindow)
  }

  /** The same of all channels below `n`. */
  function Owes(c: Conn, n: nat): nat {
    if n == 0 then 0 else Owes(c, n - 1) + if n - 1 in c.chans then ChanOwes(c.chans[n - 1]) else 0
  }

  function Debt(c: Conn): nat { Owes(c, 256) }

  lemma {:induction false} SlotsOweUpdate(out: seq<Out>, j: nat, o: Out)
    requires j < |out|
    ensures SlotsOwe(out[j := o]) == SlotsOwe(out) - SlotOwes(out[j]) + SlotOwes(o)
  {
    var n := |out| - 1;
    if j == n {
      assert out[j := o][..n] == out[..n];
    } else {
      assert out[j := o][..n] == out[..n][j := o];
      SlotsOweUpdate(out[..n], j, o);
    }
  }

  lemma {:induction false} OwesUpdate(c: Conn, id: u8, p: Pool, ch: Chan, n: nat)
    requires ConnShaped(c) && Shaped(ch) && id in c.chans
    ensures Owes(With(c, id, p, ch), n) == Owes(c, n) + if id < n then ChanOwes(ch) - ChanOwes(c.chans[id]) else 0
  {
    hide ChanOwes, Shaped;
    if n > 0 { OwesUpdate(c, id, p, ch, n - 1); }
  }

  lemma {:induction false} SomeSlotOwes(out: seq<Out>) returns (j: nat)
    requires SlotsOwe(out) > 0
    ensures j < |out| && SlotOwes(out[j]) > 0
  {
    j := |out| - 1;
    if SlotOwes(out[j]) == 0 { j := SomeSlotOwes(out[..|out| - 1]); }
  }

  lemma {:induction false} SlotOwesSome(out: seq<Out>, j: nat)
    requires j < |out|
    ensures SlotsOwe(out) >= SlotOwes(out[j])
  {
    if j < |out| - 1 { SlotOwesSome(out[..|out| - 1], j); }
  }

  lemma {:induction false} SomeChanOwes(c: Conn, n: nat) returns (id: nat)
    requires Owes(c, n) > 0
    ensures id < n && id in c.chans && ChanOwes(c.chans[id]) > 0
  {
    hide ChanOwes;
    id := n - 1;
    if id !in c.chans || ChanOwes(c.chans[id]) == 0 { id := SomeChanOwes(c, n - 1); }
  }

  lemma {:induction false} ChanOwesSome(c: Conn, id: u8, n: nat)
    requires id in c.chans && id < n
    ensures Owes(c, n) >= ChanOwes(c.chans[id])
  {
    hide ChanOwes;
    if id < n - 1 { ChanOwesSome(c, id, n - 1); }
  }

  // ----- every call pays some of it -----

  predicate Pending(ch: Chan) { ch.needAck || ch.needWindow }

  /** What flushing does to a channel. */
  predicate Flushed(c: Conn, c': Conn) {
    && c' == c.(chans := c'.chans) && c'.chans.Keys == c.chans.Keys
    && forall id :: id in c.chans ==>
         c'.chans[id] == c.chans[id].(needAck := c'.chans[id].needAck, needWindow := c'.chans[id].needWindow)
  }

  lemma FlushedOne(c: Conn, i: u8, pos: nat, mtu: nat)
    requires ConnShaped(c) && i in c.chans && pos + 6 <= mtu
    ensures var (c1, pos1, fs1) := FlushAck(c.chans[i], i, pos, mtu);
            var (c2, pos2, fs2) := FlushWindow(c1, i, pos1, mtu);
            var k := With(c, i, c.pool, c2);
      && Flushed(c, k) && Debt(k) <= Debt(c)
      && (Pending(c.chans[i]) ==> Debt(k) < Debt(c)) && (!Pending(c.chans[i]) ==> k == c && pos2 == pos)
  {
    var (c1, pos1, fs1) := FlushAck(c.chans[i], i, pos, mtu);
    var (c2, pos2, fs2) := FlushWindow(c1, i, pos1, mtu);
    OwesUpdate(c, i, c.pool, c2, 256);
    hide Owes, SlotsOwe, Shaped;
    if !Pending(c.chans[i]) { assert With(c, i, c.pool, c2) == c; }
  }

  lemma FlushedOn(a: Conn, b: Conn, c: Conn)
    requires Flushed(a, b) && Flushed(b, c)
    ensures Flushed(a, c)
  {}

  lemma {:induction false} FlushPays(c: Conn, i: nat, pos: nat, mtu: nat)
    requires ConnShaped(c)
    ensures var c' := FlushFrom(c, i, pos, mtu).0;
      && Flushed(c, c') && Debt(c') <= Debt(c)
      && (pos + 6 <= mtu && (exists id :: id in c.chans && id >= i && Pending(c.chans[id])) ==> Debt(c') < Debt(c))
    decreases 256 - i
  {
    hide Debt, Shaped, FlushAck, FlushWindow;
    if i >= 256 || pos + 6 > mtu {
    } else if i !in c.chans {
      FlushPays(c, i + 1, pos, mtu);
    } else {
      var (c1, pos1, fs1) := FlushAck(c.chans[i], i, pos, mtu);
      var (c2, pos2, fs2) := FlushWindow(c1, i, pos1, mtu);
      FlushedOne(c, i, pos, mtu);
      var k := With(c, i, c.pool, c2);
      FlushPays(k, i + 1, pos2, mtu);
      FlushedOn(c, k, FlushFrom(k, i + 1, pos2, mtu).0);
    }
  }

  lemma TransmitPays(c: Conn, i: u8, j: nat, now: u32)
    requires ConnShaped(c) && i in c.chans && c.chans[i].sender && c.chans[i].state == 1 && j < SLOTS
    requires c.chans[i].out[j].active && c.chans[i].out[j].fragSent < c.chans[i].out[j].fragTotal
    ensures var (p, ch) := Transmit(c.pool, c.chans[i], j, now); Debt(With(c, i, p, ch)) < Debt(c)
  {
    var (p, ch) := Transmit(c.pool, c.chans[i], j, now);
    var out, o := c.chans[i].out, Sending(c.chans[i].out[j], now);
    SlotsOweUpdate(out, j, o);
    assert out[j := o][j := o.(buf := NOBUF, active := false)] == out[j := o.(buf := NOBUF, active := false)];
    SlotsOweUpdate(out, j, o.(buf := NOBUF, active := false));
    OwesUpdate(c, i, p, ch, 256);
    hide Owes, SlotsOwe, Shaped;
  }

  lemma {:induction false} DataPays(c: Conn, i: nat, pos: nat, mtu: nat, now: u32)
    requires ConnShaped(c)
    ensures var c' := DataFrom(c, i, pos, mtu, now).0;
      && Debt(c') <= Debt(c) && c'.mtu == c.mtu && c'.pool.store == c.pool.store
      && (pos + 8 + Payload(c) <= mtu && (exists id :: id in c.chans && id >= i && !Idle(c.chans[id])) ==>
            Debt(c') < Debt(c))
    decreases 256 - i
  {
    hide Debt, NextSendable, Transmit, FrameOf;
    if i >= 256 || pos + 9 > mtu {
    } else if i !in c.chans || !c.chans[i].sender || c.chans[i].state != 1 {
      DataPays(c, i + 1, pos, mtu, now);
    } else {
      var ch := c.chans[i];
      var j := NextSendable(ch, ch.outHead);
      if j == SLOTS {
        DataPays(c, i + 1, pos, mtu, now);
      } else {
        var n := PieceLen(ch.out[j], Payload(c));
        assert n <= Payload(c);
        if pos + 8 + n <= mtu {
          var (p, ch1) := Transmit(c.pool, ch, j, now);
          TransmitPays(c, i, j, now);
          TransmitStore(c.pool, ch, j, now);
          hide PieceLen, Shaped, Idle;
          DataPays(With(c, i, p, ch1), i + 1, pos + 8 + n, mtu, now);
        }
      }
    }
  }

  lemma TransmitStore(p: Pool, ch: Chan, j: nat, now: u32)
    requires Shaped(ch) && j < SLOTS
    ensures Transmit(p, ch, j, now).0.store == p.store
  {}

  /** In a tidy ring a slot with fragments left is found. */
  lemma {:induction false} FindsSlot(ch: Chan, i: nat, j: nat)
    requires Shaped(ch) && i < SLOTS && j < SLOTS && InRing(j, i, ch.outTail) && SlotOwes(ch.out[j]) > 0
    ensures NextSendable(ch, i) < SLOTS
    decreases Distance(i, ch.outTail)
  {
    if i != j { FindsSlot(ch, NextSlot(i), j); }
  }

  /** While anything is owed, a call of netchan_send_next pays some of it. */
  lemma SendPays(c: Conn, now: u32)
    requires Sound(c) && ConnShaped(c) && Debt(c) > 0
    ensures Debt(SendNext(c, HEADER, c.mtu, now).0) < Debt(c)
  {
    FlushPays(c, 0, HEADER, c.mtu);
    var (c1, pos1, fs1) := FlushFrom(c, 0, HEADER, c.mtu);
    DataPays(c1, 0, pos1, c.mtu, now);
    if Quiet(c) {
      FlushQuiet(c, 0, HEADER, c.mtu);
      var id := SomeChanOwes(c, 256);
      var ch := c.chans[id];
      assert SlotsOwe(ch.out) > 0;
      var j := SomeSlotOwes(ch.out);
      FindsSlot(ch, ch.outHead, j);
      hide FlushFrom, DataFrom, Debt, NextSendable, SlotsOwe, ChanOwes;
      assert !Idle(c.chans[id]);
    } else {
      hide FlushFrom, DataFrom, Debt;
    }
  }

  // ----- the fragments of one message -----

  /** `k` calls in a row, and all frames they produced. */
  function SendMany(c: Conn, k: nat, now: u32): (r: (Conn, seq<Frame>))
    requires ConnShaped(c)
    ensures ConnShaped(r.0)
    decreases k
  {
    if k == 0 then (c, [])
    else
      var (c1, gs) := SendNext(c, HEADER, c.mtu, now);
      var (c2, fs) := SendMany(c1, k - 1, now);
      (c2, gs + fs)
  }

  /** Fragment `i` of message `m` as a frame. */
  function PieceFrame(id: u8, num: u16, m: Message, fp: nat, i: nat): Frame
    requires fp > 0 && Offset(i, fp) <= |m|
  {
    DataFrame(id, num, i % 0x100, Pieces(|m|, fp) % 0x100, Cut(m, i, fp))
  }

  lemma PieceFrameIs(id: u8, num: u16, m: Message, fp: nat, i: nat)
    requires Admissible(fp) && 0 < |m| <= MAX_MSG && i < Pieces(|m|, fp) && Offset(i, fp) <= |m|
    ensures var f := PieceFrame(id, num, m, fp, i);
      f.id == id && f.num == num && f.idx == i && f.total == Pieces(|m|, fp) && f.data == Cut(m, i, fp)
  {
    PiecesFit(|m|, fp);
    hide Pieces, Cut, Offset;
  }

  /** Slot `j` of an open channel has fragments of `m` from `k` on to send. */
  predicate Midway(c: Conn, id: u8, j: nat, m: Message, num: u16, k: nat) {
    && ConnShaped(c) && id in c.chans && c.chans[id].sender && c.chans[id].state == 1 && j < SLOTS
    && var o := c.chans[id].out[j];
       && o.active && o.num == num && o.fragSent == k < o.fragTotal && o.len == |m| && 0 < |m| <= MAX_MSG
       && o.fragTotal == Pieces(|m|, Payload(c)) && Content(c.pool, o.buf, o.len) == m
  }

  lemma PieceSent(c: Conn, id: u8, j: nat, m: Message, num: u16, k: nat)
    requires Midway(c, id, j, m, num, k)
    ensures Offset(k, Payload(c)) <= |m| && FrameOf(c, id, j) == PieceFrame(id, num, m, Payload(c), k)
  {
    var o, fp := c.chans[id].out[j], Payload(c);
    PieceShape(o.len, k, fp);
    var at, n := Offset(k, fp), PieceLen(o, fp);
    assert at + n == End(o.len, k, fp);
    hide Offset, Pieces;
    PartOf(Buffer(c.pool, o.buf), m, at, n);
  }

  /** Either nothing happened to the slot, or its next fragment went out. */
  predicate Advanced(c: Conn, c': Conn, fs: seq<Frame>, id: u8, j: nat, m: Message, num: u16, k: nat)
    requires c.mtu > OVERHEAD
  {
    || Midway(c', id, j, m, num, k)
    || (&& Offset(k, Payload(c)) <= |m| && PieceFrame(id, num, m, Payload(c), k) in fs
        && (k + 1 < Pieces(|m|, Payload(c)) ==> Midway(c', id, j, m, num, k + 1)))
  }

  /** Whichever channel sends, slot `j` of channel `id` stays or advances. */
  lemma TransmitAdvances(c: Conn, i: u8, js: nat, now: u32, id: u8, j: nat, m: Message, num: u16, k: nat)
    requires Midway(c, id, j, m, num, k) && i in c.chans && js < SLOTS
    ensures var (p, ch) := Transmit(c.pool, c.chans[i], js, now);
            var c' := With(c, i, p, ch);
      if i == id && js == j then k + 1 < Pieces(|m|, Payload(c)) ==> Midway(c', id, j, m, num, k + 1)
      else Midway(c', id, j, m, num, k)
  {
    TransmitStore(c.pool, c.chans[i], js, now);
    hide Pieces;
  }

  lemma {:induction false} DataAdvances(c: Conn, i: nat, pos: nat, mtu: nat, now: u32, id: u8, j: nat, m: Message,
                                        num: u16, k: nat)
    requires ConnShaped(c) && Midway(c, id, j, m, num, k)
    ensures var (c', _, fs) := DataFrom(c, i, pos, mtu, now);
      c'.mtu == c.mtu && (id < i ==> Midway(c', id, j, m, num, k)) && Advanced(c, c', fs, id, j, m, num, k)
    decreases 256 - i
  {
    hide NextSendable, Transmit, FrameOf, PieceLen, Pieces, Midway, Advanced;
    if i >= 256 || pos + 9 > mtu {
      JustFrames(c, c, [], id, j, m, num, k);
    } else if i !in c.chans || !c.chans[i].sender || c.chans[i].state != 1 {
      DataAdvances(c, i + 1, pos, mtu, now, id, j, m, num, k);
    } else {
      var ch := c.chans[i];
      var js := NextSendable(ch, ch.outHead);
      var n := if js == SLOTS then 0 else PieceLen(ch.out[js], Payload(c));
      if js == SLOTS {
        DataAdvances(c, i + 1, pos, mtu, now, id, j, m, num, k);
      } else if pos + 8 + n > mtu {
        JustFrames(c, c, [], id, j, m, num, k);
      } else {
        var f := FrameOf(c, i, js);
        var (p, ch1) := Transmit(c.pool, ch, js, now);
        var c1 := With(c, i, p, ch1);
        TransmitAdvances(c, i, js, now, id, j, m, num, k);
        hide Shaped;
        var (c', _, fs) := DataFrom(c1, i + 1, pos + 8 + n, mtu, now);
        if i == id && js == j {
          DataPays(c1, i + 1, pos + 8 + n, mtu, now);
          if k + 1 < Pieces(|m|, Payload(c)) {
            DataAdvances(c1, i + 1, pos + 8 + n, mtu, now, id, j, m, num, k + 1);
          }
          PieceGoes(c, c', fs, id, j, m, num, k);
        } else {
          DataAdvances(c1, i + 1, pos + 8 + n, mtu, now, id, j, m, num, k);
          MoreFrames(c, c1, c', [f], fs, id, j, m, num, k);
        }
      }
    }
  }

  lemma PieceGoes(c: Conn, c': Conn, fs: seq<Frame>, id: u8, j: nat, m: Message, num: u16, k: nat)
    requires Midway(c, id, j, m, num, k)
    requires k + 1 < Pieces(|m|, Payload(c)) ==> Midway(c', id, j, m, num, k + 1)
    ensures Advanced(c, c', [FrameOf(c, id, j)] + fs, id, j, m, num, k)
  {
    PieceSent(c, id, j, m, num, k);
    hide Pieces, Offset, PieceFrame, FrameOf;
    assert ([FrameOf(c, id, j)] + fs)[0] == FrameOf(c, id, j);
  }

  lemma JustFrames(c: Conn, c': Conn, fs: seq<Frame>, id: u8, j: nat, m: Message, num: u16, k: nat)
    requires c.mtu > OVERHEAD && Midway(c', id, j, m, num, k)
    ensures Advanced(c, c', fs, id, j, m, num, k)
  {
    hide Midway, PieceFrame, Pieces, Offset;
  }

  lemma MoreFrames(c: Conn, c1: Conn, c': Conn, gs: seq<Frame>, fs: seq<Frame>, id: u8, j: nat, m: Message, num: u16,
                   k: nat)
    requires c.mtu == c1.mtu > OVERHEAD && Advanced(c1, c', fs, id, j, m, num, k)
    ensures Advanced(c, c', gs + fs, id, j, m, num, k)
  {
    hide Midway, PieceFrame, Pieces, Offset;
  }

  lemma SendAdvances(c: Conn, now: u32, id: u8, j: nat, m: Message, num: u16, k: nat)
    requires Midway(c, id, j, m, num, k)
    ensures var (c', fs) := SendNext(c, HEADER, c.mtu, now); c'.mtu == c.mtu && Advanced(c, c', fs, id, j, m, num, k)
  {
    FlushPays(c, 0, HEADER, c.mtu);
    var (c1, pos1, fs1) := FlushFrom(c, 0, HEADER, c.mtu);
    assert Midway(c1, id, j, m, num, k);
    hide FlushFrom, DataFrom, Midway, Advanced, Flushed;
    DataAdvances(c1, 0, pos1, c.mtu, now, id, j, m, num, k);
    var (c2, pos2, fs2) := DataFrom(c1, 0, pos1, c.mtu, now);
    MoreFrames(c, c1, c2, fs1, fs2, id, j, m, num, k);
  }

  predicate Emitted(fs: seq<Frame>, id: u8, num: u16, m: Message, fp: nat, from: nat) {
    fp > 0 && forall i :: from <= i < Pieces(|m|, fp) ==> Offset(i, fp) <= |m| && PieceFrame(id, num, m, fp, i) in fs
  }

  lemma OneMore(fs: seq<Frame>, gs: seq<Frame>, id: u8, num: u16, m: Message, fp: nat, k: nat)
    requires fp > 0 && Offset(k, fp) <= |m| && PieceFrame(id, num, m, fp, k) in gs
    requires k + 1 >= Pieces(|m|, fp) || Emitted(fs, id, num, m, fp, k + 1)
    ensures Emitted(gs + fs, id, num, m, fp, k)
  {
    hide Offset, PieceFrame, Pieces;
  }

  lemma StillEmitted(fs: seq<Frame>, gs: seq<Frame>, id: u8, num: u16, m: Message, fp: nat, k: nat)
    requires Emitted(fs, id, num, m, fp, k)
    ensures Emitted(gs + fs, id, num, m, fp, k)
  {
    hide Offset, PieceFrame, Pieces;
  }

  lemma MidwayOwes(c: Conn, id: u8, j: nat, m: Message, num: u16, k: nat)
    requires Midway(c, id, j, m, num, k)
    ensures Debt(c) > 0 && ConnShaped(c) && Payload(c) > 0
  {
    SlotOwesSome(c.chans[id].out, j);
    ChanOwesSome(c, id, 256);
    hide Owes, SlotsOwe, Pieces;
  }

  /** Calling netchan_send_next as often as there is something to send, on whatever channels,
      puts every fragment the message still has on the wire. */
  lemma {:induction false} EmitsAll(c: Conn, id: u8, j: nat, m: Message, num: u16, k: nat, n: nat, now: u32)
    requires Sound(c) && Midway(c, id, j, m, num, k) && n >= Debt(c)
    ensures Emitted(SendMany(c, n, now).1, id, num, m, Payload(c), k)
    decreases n
  {
    hide Sound, SendNext, Debt, Midway, PieceFrame, Pieces, Offset, Emitted;
    MidwayOwes(c, id, j, m, num, k);
    var (c1, gs) := SendNext(c, HEADER, c.mtu, now);
    SendPays(c, now);
    SendAdvances(c, now, id, j, m, num, k);
    DoSound(c, Send(HEADER, c.mtu, now));
    var fs := SendMany(c1, n - 1, now).1;
    if Midway(c1, id, j, m, num, k) {
      EmitsAll(c1, id, j, m, num, k, n - 1, now);
      StillEmitted(fs, gs, id, num, m, Payload(c), k);
    } else {
      if k + 1 < Pieces(|m|, Payload(c)) { EmitsAll(c1, id, j, m, num, k + 1, n - 1, now); }
      OneMore(fs, gs, id, num, m, Payload(c), k);
    }
  }
}
