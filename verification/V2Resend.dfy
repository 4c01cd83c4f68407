/** Recovery from loss on the reliable channels of netchan-v2: what has gone out and is not
    acknowledged goes out again when its time is up, not before, and only so many times. */
module V2Resend {
  import opened Bytes
  import opened V2Channel
  import opened V2Pool
  import opened V2Fragments
  import opened V2Conn
  import opened V2Emission

  // ----- when a slot is due -----

  function Power2(n: nat): nat { if n == 0 then 1 else 2 * Power2(n - 1) }

  /** The wait after transmission `a`: the configured interval, doubled by each transmission
      after the first, as 32 bits hold it, and at most a second. */
  function Backoff(rt: nat, a: nat): nat
    requires a > 0
  {
    var t := rt * Power2(a - 1) % 0x1_0000_0000;
    if t < 1000 then t else 1000
  }

  lemma TimeoutIs(rt: nat, a: nat)
    requires 1 <= a <= 5
    ensures Timeout(rt, a) == Backoff(rt, a)
  {
    assert Power2(0) == 1 && Power2(1) == 2 && Power2(2) == 4 && Power2(3) == 8 && Power2(4) == 16;
  }

  /** The slot went out at a time other than 0, and its wait is over. */
  predicate Due(o: Out, rt: nat, now: u32) {
    o.active && o.sentMs > 0 && o.attempts > 0 && Wrap32(now - o.sentMs) >= Backoff(rt, o.attempts)
  }

  /** The same after the last transmission. */
  predicate Spent(o: Out, rt: nat, now: u32) { Due(o, rt, now) && o.attempts == 5 }

  /** Whatever has been sent counts its transmissions, at most five. */
  predicate Counted(o: Out) { o.active ==> o.attempts <= 5 && (o.sentMs > 0 ==> o.attempts > 0) }

  predicate ChanCounted(ch: Chan) { forall i :: 0 <= i < |ch.out| ==> Counted(ch.out[i]) }

  predicate ConnCounted(c: Conn) { forall id :: id in c.chans ==> ChanCounted(c.chans[id]) }

  // ----- the service of one channel -----

  predicate SomeSpent(ch: Chan, rt: nat, now: u32, from: nat, last: nat) {
    exists k :: from <= k <= last < |ch.out| && Spent(ch.out[k], rt, now)
  }

  /** A slot to be sent again from its first fragment. */
  function Rearmed(o: Out, now: u32): Out { o.(fragSent := 0, sentMs := now, attempts := o.attempts + 1) }

  /** The channel `ch1` is `ch` with every due slot before the first spent one re-armed, and
      given up exactly when there is a spent one. */
  predicate Served(ch: Chan, ch1: Chan, rt: nat, now: u32, from: nat)
    requires Shaped(ch)
  {
    && ch1 == ch.(out := ch1.out, state := if SomeSpent(ch, rt, now, from, SLOTS - 1) then 3 else ch.state)
    && |ch1.out| == SLOTS
    && forall i :: 0 <= i < SLOTS ==>
         ch1.out[i] == if from <= i && Due(ch.out[i], rt, now) && !SomeSpent(ch, rt, now, from, i)
                         then Rearmed(ch.out[i], now) else ch.out[i]
  }

  lemma LoopTest(o: Out, rt: nat, now: u32)
    requires Counted(o)
    ensures Due(o, rt, now) <==> !(!o.active || o.sentMs == 0 || Wrap32(now - o.sentMs) < Timeout(rt, o.attempts))
  {
    hide Timeout, Backoff, Wrap32;
    if o.active && o.sentMs > 0 { TimeoutIs(rt, o.attempts); }
  }

  lemma {:induction false} RetransmitServes(ch: Chan, rt: nat, now: u32, j: nat)
    requires Shaped(ch) && ChanCounted(ch) && j <= SLOTS
    ensures Served(ch, Retransmit(ch, rt, now, j), rt, now, j)
    decreases SLOTS - j
  {
    hide Timeout, Wrap32, Due, Served, ChanCounted, Rearmed;
    if j == SLOTS {
      NoneServed(ch, rt, now);
    } else {
      var o := ch.out[j];
      assert Counted(o) by { SlotCounted(ch, j); }
      LoopTest(o, rt, now);
      if !Due(o, rt, now) {
        RetransmitServes(ch, rt, now, j + 1);
        LaterServed(ch, ch, Retransmit(ch, rt, now, j + 1), rt, now, j);
      } else if o.attempts >= MAX_RT_ATTEMPTS {
        assert o.attempts == 5 by { SlotActive(o, rt, now); }
        GivenUp(ch, rt, now, j);
      } else {
        var k := ch.(out := ch.out[j := Rearmed(o, now)]);
        RearmCounted(ch, j, now);
        RetransmitServes(k, rt, now, j + 1);
        LaterServed(ch, k, Retransmit(k, rt, now, j + 1), rt, now, j);
        RearmUnfolds(ch, rt, now, j);
      }
    }
  }

  lemma SlotCounted(ch: Chan, j: nat)
    requires ChanCounted(ch) && j < |ch.out|
    ensures Counted(ch.out[j])
  {}

  lemma SlotActive(o: Out, rt: nat, now: u32)
    requires Due(o, rt, now) && Counted(o)
    ensures o.attempts <= 5
  {}

  lemma RearmCounted(ch: Chan, j: nat, now: u32)
    requires ChanCounted(ch) && j < |ch.out| && ch.out[j].attempts < 5
    ensures ChanCounted(ch.(out := ch.out[j := Rearmed(ch.out[j], now)]))
  {}

  /** A turn of the loop that re-arms. */
  lemma RearmUnfolds(ch: Chan, rt: nat, now: u32, j: nat)
    requires Shaped(ch) && j < SLOTS && Counted(ch.out[j]) && Due(ch.out[j], rt, now) && ch.out[j].attempts < 5
    ensures Retransmit(ch, rt, now, j)
         == Retransmit(ch.(out := ch.out[j := Rearmed(ch.out[j], now)]), rt, now, j + 1)
  {
    LoopTest(ch.out[j], rt, now);
    hide Timeout, Wrap32, Due;
  }

  lemma NoneServed(ch: Chan, rt: nat, now: u32)
    requires Shaped(ch)
    ensures Served(ch, ch, rt, now, SLOTS)
  {
    hide Due;
  }

  lemma GivenUp(ch: Chan, rt: nat, now: u32, j: nat)
    requires Shaped(ch) && j < SLOTS && Spent(ch.out[j], rt, now)
    ensures Served(ch, ch.(state := 3), rt, now, j)
  {
    hide Due, Spent;
    forall i: nat | j <= i < SLOTS ensures SomeSpent(ch, rt, now, j, i) { assert Spent(ch.out[j], rt, now); }
  }

  /** One more slot at the front, re-armed if it was due. */
  lemma LaterServed(ch: Chan, k: Chan, r: Chan, rt: nat, now: u32, j: nat)
    requires Shaped(ch) && Shaped(k) && j < SLOTS && !Spent(ch.out[j], rt, now) && Served(k, r, rt, now, j + 1)
    requires k == ch.(out := ch.out[j := if Due(ch.out[j], rt, now) then Rearmed(ch.out[j], now) else ch.out[j]])
    ensures Served(ch, r, rt, now, j)
  {
    hide Due, Spent, SomeSpent;
    SpentShift(ch, k, rt, now, j);
    SpentNone(ch, rt, now, j);
  }

  lemma SpentNone(ch: Chan, rt: nat, now: u32, j: nat)
    requires j < |ch.out| && !Spent(ch.out[j], rt, now)
    ensures !SomeSpent(ch, rt, now, j, j)
  {}

  lemma SpentShift(ch: Chan, k: Chan, rt: nat, now: u32, j: nat)
    requires j < |ch.out| == |k.out| && forall i :: j < i < |ch.out| ==> ch.out[i] == k.out[i]
    requires !Spent(ch.out[j], rt, now)
    ensures forall i: nat :: SomeSpent(ch, rt, now, j, i) <==> SomeSpent(k, rt, now, j + 1, i)
  {
    hide Spent;
    forall i: nat ensures SomeSpent(ch, rt, now, j, i) <==> SomeSpent(k, rt, now, j + 1, i) {}
  }

  // ----- the service of every channel -----

  lemma {:induction false} ServiceEach(c: Conn, i: nat, now: u32)
    requires ConnShaped(c)
    ensures var c1 := ServiceFrom(c, i, now);
      && c1 == c.(chans := c1.chans) && c1.chans.Keys == c.chans.Keys
      && forall id :: id in c.chans ==>
           c1.chans[id] == if i <= id && c.chans[id].sender && c.chans[id].kind == RELIABLE
                             then Retransmit(c.chans[id], c.rt, now, 0) else c.chans[id]
    decreases 256 - i
  {
    hide Retransmit, Shaped;
    if i >= 256 {
    } else if i !in c.chans || !c.chans[i].sender || c.chans[i].kind != RELIABLE {
      ServiceEach(c, i + 1, now);
    } else {
      ServiceEach(With(c, i, c.pool, Retransmit(c.chans[i], c.rt, now, 0)), i + 1, now);
    }
  }

  /** netchan_service on all channels: each reliable channel for sending has its due slots
      re-armed, up to the first spent one, and is given up exactly when there is one. */
  lemma ServiceServes(c: Conn, now: u32)
    requires ConnShaped(c) && ConnCounted(c)
    ensures var c1 := Do(c, Service(now)).0;
      && c1 == c.(chans := c1.chans) && c1.chans.Keys == c.chans.Keys && Do(c, Service(now)).1 == []
      && forall id :: id in c.chans ==>
           if c.chans[id].sender && c.chans[id].kind == RELIABLE then Served(c.chans[id], c1.chans[id], c.rt, now, 0)
           else c1.chans[id] == c.chans[id]
  {
    hide Retransmit, Shaped, Served, ChanCounted, ServiceFrom;
    ServiceEach(c, 0, now);
    forall id | id in c.chans
      ensures Served(c.chans[id], Retransmit(c.chans[id], c.rt, now, 0), c.rt, now, 0)
    {
      RetransmitServes(c.chans[id], c.rt, now, 0);
    }
  }

  // ----- transmissions are counted in every run -----

  lemma {:induction false} AckCounted(p: Pool, ch: Chan, a: u16, i: nat)
    requires Shaped(ch) && ChanCounted(ch) && i <= SLOTS
    ensures ChanCounted(AckFrom(p, ch, a, i).1)
    decreases SLOTS - i
  {
    hide Acked, Wrap32;
    if i < SLOTS {
      if Acked(ch.out[i], a) {
        var (p1, c1) := Release(p, ch, i);
        AckCounted(p1, c1.(inFlight := Wrap32(ch.inFlight - ch.out[i].len)), a, i + 1);
      } else {
        AckCounted(p, ch, a, i + 1);
      }
    }
  }

  lemma {:induction false} DataCounted(c: Conn, i: nat, pos: nat, mtu: nat, now: u32)
    requires ConnShaped(c) && ConnCounted(c)
    ensures ConnCounted(DataFrom(c, i, pos, mtu, now).0)
    decreases 256 - i
  {
    hide FrameOf, PieceLen, NextSendable, Transmit, ChanCounted;
    if i >= 256 || pos + 9 > mtu {
    } else if i !in c.chans || !c.chans[i].sender || c.chans[i].state != 1 {
      DataCounted(c, i + 1, pos, mtu, now);
    } else {
      var ch := c.chans[i];
      var j := NextSendable(ch, ch.outHead);
      if j == SLOTS {
        DataCounted(c, i + 1, pos, mtu, now);
      } else {
        var n := PieceLen(ch.out[j], Payload(c));
        if pos + 8 + n <= mtu {
          var (p, ch1) := Transmit(c.pool, ch, j, now);
          TransmitCounted(c.pool, ch, j, now);
          hide Shaped;
          DataCounted(With(c, i, p, ch1), i + 1, pos + 8 + n, mtu, now);
        }
      }
    }
  }

  lemma TransmitCounted(p: Pool, ch: Chan, j: nat, now: u32)
    requires Shaped(ch) && ChanCounted(ch) && j < SLOTS
    ensures ChanCounted(Transmit(p, ch, j, now).1)
  {}

  lemma WriteCounted(p: Pool, ch: Chan, fp: nat, data: Message)
    requires Shaped(ch) && ChanCounted(ch) && fp > 0
    ensures ChanCounted(Write(p, ch, fp, data).1)
  {
    hide Pieces, Wrap32;
  }

  lemma ServedCounted(ch: Chan, ch1: Chan, rt: nat, now: u32)
    requires Shaped(ch) && ChanCounted(ch) && Served(ch, ch1, rt, now, 0)
    ensures ChanCounted(ch1)
  {
    forall i | 0 <= i < SLOTS ensures Counted(ch1.out[i]) {
      if Due(ch.out[i], rt, now) && !SomeSpent(ch, rt, now, 0, i) {
        assert !Spent(ch.out[i], rt, now);
      }
    }
  }

  lemma DoCounted(c: Conn, call: Call)
    requires ConnShaped(c) && ConnCounted(c)
    ensures ConnCounted(Do(c, call).0)
  {
    hide Data, AckFrom, FlushFrom, DataFrom, ServiceFrom, Write, Read, Served;
    match call
    case Feed(f) =>
      if f.AckFrame? && f.id in c.chans { AckCounted(c.pool, c.chans[f.id], f.num, 0); }
    case Send(pos, room, now) =>
      FlushPays(c, 0, pos, room);
      var (c1, pos1, _) := FlushFrom(c, 0, pos, room);
      assert ConnCounted(c1);
      DataCounted(c1, 0, pos1, room, now);
    case Service(now) =>
      ServiceServes(c, now);
      var c1 := Do(c, call).0;
      forall id | id in c1.chans ensures ChanCounted(c1.chans[id]) {
        if c.chans[id].sender && c.chans[id].kind == RELIABLE {
          ServedCounted(c.chans[id], c1.chans[id], c.rt, now);
        }
      }
    case WriteCall(id, data) => if id in c.chans { WriteCounted(c.pool, c.chans[id], Payload(c), data); }
    case _ =>
  }

  lemma {:induction false} RunCounted(c: Conn, calls: seq<Call>)
    requires ConnShaped(c) && ConnCounted(c)
    ensures ConnCounted(Run(c, calls))
  {
    hide Do, ConnCounted, Shaped;
    if calls != [] {
      RunCounted(c, calls[..|calls| - 1]);
      DoCounted(Run(c, calls[..|calls| - 1]), calls[|calls| - 1]);
    }
  }

  // ----- what sending does to a slot, and which frames come of it -----

  /** Nothing happened, or more fragments went out at `now`, and the first time is counted. */
  predicate Progress(o: Out, o1: Out, now: u32) {
    || o1 == o
    || (&& o.fragSent < o1.fragSent <= o.fragTotal
        && o1 == o.(fragSent := o1.fragSent, sentMs := now, attempts := if o.attempts == 0 then 1 else o.attempts))
  }

  predicate Onward(ch: Chan, ch1: Chan, now: u32) {
    && ch1 == ch.(out := ch1.out, outHead := ch1.outHead, needAck := ch1.needAck, needWindow := ch1.needWindow)
    && |ch1.out| == |ch.out|
    && forall j :: 0 <= j < |ch.out| ==>
         Progress(ch.out[j], ch1.out[j], now) || (ch.kind == UNRELIABLE && !ch1.out[j].active)
  }

  predicate AllOnward(c: Conn, c1: Conn, now: u32) {
    && c1 == c.(chans := c1.chans, pool := c1.pool) && c1.pool.store == c.pool.store && c1.chans.Keys == c.chans.Keys
    && forall id :: id in c.chans ==> Onward(c.chans[id], c1.chans[id], now)
  }

  lemma OnwardChain(a: Conn, b: Conn, c: Conn, now: u32)
    requires AllOnward(a, b, now) && AllOnward(b, c, now)
    ensures AllOnward(a, c, now)
  {
    forall id | id in a.chans ensures Onward(a.chans[id], c.chans[id], now) {
      assert Onward(a.chans[id], b.chans[id], now) && Onward(b.chans[id], c.chans[id], now);
    }
  }

  /** Frame `f` is fragment `x`, not yet sent, of slot `j` of an open channel. */
  predicate OwedBy(c: Conn, f: Frame, j: nat, x: nat)
    requires c.mtu > OVERHEAD
  {
    && f.DataFrame? && f.id in c.chans && c.chans[f.id].sender && c.chans[f.id].state == 1 && j < |c.chans[f.id].out|
    && var o := c.chans[f.id].out[j];
       && o.active && o.fragSent <= x < o.fragTotal
       && f == DataFrame(f.id, o.num, x % 0x100, o.fragTotal % 0x100,
                         PieceOf(c.pool, o.(fragSent := x), Payload(c)))
  }

  ghost predicate Owed(c: Conn, f: Frame)
    requires c.mtu > OVERHEAD
  {
    f.DataFrame? ==> exists j, x :: OwedBy(c, f, j, x)
  }

  ghost predicate AllOwed(c: Conn, fs: seq<Frame>)
    requires c.mtu > OVERHEAD
  {
    forall f :: f in fs ==> Owed(c, f)
  }

  lemma OwedBefore(c: Conn, c1: Conn, now: u32, fs: seq<Frame>)
    requires c.mtu == c1.mtu > OVERHEAD && AllOnward(c, c1, now) && AllOwed(c1, fs)
    ensures AllOwed(c, fs)
  {
    forall f | f in fs && f.DataFrame? ensures exists j, x :: OwedBy(c, f, j, x) {
      assert Owed(c1, f);
      var j, x :| OwedBy(c1, f, j, x);
      SlotBefore(c, c1, now, f, j, x);
    }
  }

  lemma SlotBefore(c: Conn, c1: Conn, now: u32, f: Frame, j: nat, x: nat)
    requires c.mtu == c1.mtu > OVERHEAD && AllOnward(c, c1, now) && OwedBy(c1, f, j, x)
    ensures OwedBy(c, f, j, x)
  {
    assert Onward(c.chans[f.id], c1.chans[f.id], now);
    var o, o1 := c.chans[f.id].out[j], c1.chans[f.id].out[j];
    assert Progress(o, o1, now);
    hide PieceLen, Offset, Part;
    assert PieceOf(c.pool, o.(fragSent := x), Payload(c)) == PieceOf(c1.pool, o1.(fragSent := x), Payload(c1));
  }

  lemma TransmitOnward(c: Conn, i: u8, j: nat, now: u32)
    requires ConnShaped(c) && i in c.chans && c.chans[i].sender && c.chans[i].state == 1 && j < SLOTS
    requires c.chans[i].out[j].active && c.chans[i].out[j].fragSent < c.chans[i].out[j].fragTotal
    ensures var (p, ch) := Transmit(c.pool, c.chans[i], j, now); AllOnward(c, With(c, i, p, ch), now)
    ensures Owed(c, FrameOf(c, i, j))
  {
    TransmitStore(c.pool, c.chans[i], j, now);
    hide PieceLen, Offset, Part;
    var o := c.chans[i].out[j];
    assert o.(fragSent := o.fragSent) == o;
    assert OwedBy(c, FrameOf(c, i, j), j, o.fragSent);
  }

  lemma OneMoreOwed(c: Conn, f: Frame, fs: seq<Frame>)
    requires c.mtu > OVERHEAD && Owed(c, f) && AllOwed(c, fs)
    ensures AllOwed(c, [f] + fs)
  {
    hide Owed;
  }

  lemma {:induction false} DataOnward(c: Conn, i: nat, pos: nat, mtu: nat, now: u32)
    requires ConnShaped(c)
    ensures var (c1, _, fs) := DataFrom(c, i, pos, mtu, now); AllOnward(c, c1, now) && AllOwed(c, fs)
    decreases 256 - i
  {
    hide FrameOf, PieceLen, NextSendable, Transmit, Owed, AllOnward;
    StaysPut(c, now);
    if i >= 256 || pos + 9 > mtu {
    } else if i !in c.chans || !c.chans[i].sender || c.chans[i].state != 1 {
      DataOnward(c, i + 1, pos, mtu, now);
    } else {
      var ch := c.chans[i];
      var j := NextSendable(ch, ch.outHead);
      if j == SLOTS {
        DataOnward(c, i + 1, pos, mtu, now);
      } else {
        var n := PieceLen(ch.out[j], Payload(c));
        if pos + 8 + n <= mtu {
          var (p, ch1) := Transmit(c.pool, ch, j, now);
          TransmitOnward(c, i, j, now);
          hide Shaped;
          var k := With(c, i, p, ch1);
          DataOnward(k, i + 1, pos + 8 + n, mtu, now);
          var (c1, _, fs) := DataFrom(k, i + 1, pos + 8 + n, mtu, now);
          OnwardChain(c, k, c1, now);
          OwedBefore(c, k, now, fs);
          OneMoreOwed(c, FrameOf(c, i, j), fs);
        }
      }
    }
  }

  lemma {:induction false} FlushOnward(c: Conn, i: nat, pos: nat, mtu: nat)
    requires ConnShaped(c)
    ensures forall f :: f in FlushFrom(c, i, pos, mtu).2 ==> !f.DataFrame?
    decreases 256 - i
  {
    hide Shaped;
    if i >= 256 || pos + 6 > mtu {
    } else if i !in c.chans {
      FlushOnward(c, i + 1, pos, mtu);
    } else {
      var (c1, pos1, fs1) := FlushAck(c.chans[i], i, pos, mtu);
      var (c2, pos2, fs2) := FlushWindow(c1, i, pos1, mtu);
      FlushOnward(With(c, i, c.pool, c2), i + 1, pos2, mtu);
    }
  }

  lemma SendOnward(c: Conn, now: u32)
    requires ConnShaped(c)
    ensures var (c1, fs) := SendNext(c, HEADER, c.mtu, now); AllOnward(c, c1, now) && AllOwed(c, fs)
  {
    FlushPays(c, 0, HEADER, c.mtu);
    FlushOnward(c, 0, HEADER, c.mtu);
    var (c1, pos1, fs1) := FlushFrom(c, 0, HEADER, c.mtu);
    assert AllOnward(c, c1, now);
    hide FlushFrom, DataFrom, AllOnward, Flushed, OwedBy;
    DataOnward(c1, 0, pos1, c.mtu, now);
    var (c2, pos2, fs2) := DataFrom(c1, 0, pos1, c.mtu, now);
    assert c1.mtu == c.mtu by { KeepsMtu(c, c1, now); }
    OnwardChain(c, c1, c2, now);
    OwedBefore(c, c1, now, fs2);
  }

  lemma KeepsMtu(c: Conn, c1: Conn, now: u32)
    requires AllOnward(c, c1, now)
    ensures c1.mtu == c.mtu
  {}

  /** However often packets are asked for: each slot keeps its message and only goes forward,
      what goes forward is stamped with the time, and every DATA frame is a fragment that
      was left to send. */
  lemma {:induction false} ManyOnward(c: Conn, n: nat, now: u32)
    requires ConnShaped(c)
    ensures var (c1, fs) := SendMany(c, n, now); AllOnward(c, c1, now) && AllOwed(c, fs)
    decreases n
  {
    hide SendNext, AllOnward, Owed, Shaped;
    if n == 0 {
      StaysPut(c, now);
    } else {
      var (c1, gs) := SendNext(c, HEADER, c.mtu, now);
      SendOnward(c, now);
      KeepsMtu(c, c1, now);
      ManyOnward(c1, n - 1, now);
      var (c2, fs) := SendMany(c1, n - 1, now);
      OnwardChain(c, c1, c2, now);
      OwedBefore(c, c1, now, fs);
    }
  }

  lemma StaysPut(c: Conn, now: u32)
    ensures AllOnward(c, c, now)
  {}

  // ----- a message that has gone out -----

  /** All fragments of `m` went out on the open reliable channel `id`, the last of them at
      `t`, in transmission `a`; no acknowledgement has come. */
  predicate WentOut(c: Conn, id: u8, j: nat, m: Message, num: u16, t: u32, a: nat) {
    && ConnShaped(c) && id in c.chans && j < SLOTS
    && c.chans[id].sender && c.chans[id].state == 1 && c.chans[id].kind == RELIABLE
    && var o := c.chans[id].out[j];
       && o.active && o.num == num && o.len == |m| && 0 < |m| <= MAX_MSG && Content(c.pool, o.buf, o.len) == m
       && o.fragSent == o.fragTotal == Pieces(|m|, Payload(c)) && o.sentMs == t && o.attempts == a
  }

  lemma {:induction false} ManyPays(c: Conn, n: nat, now: u32)
    requires Sound(c) && ConnShaped(c) && n >= Debt(c)
    ensures var c1 := SendMany(c, n, now).0; Sound(c1) && Debt(c1) == 0
    decreases n
  {
    hide Sound, SendNext, Debt, Shaped;
    if n > 0 {
      DoSound(c, Send(HEADER, c.mtu, now));
      if Debt(c) > 0 { SendPays(c, now); } else { NothingOwed(c, now); }
      ManyPays(SendNext(c, HEADER, c.mtu, now).0, n - 1, now);
    }
  }

  /** With nothing owed, nothing is sent. */
  lemma NothingOwed(c: Conn, now: u32)
    requires ConnShaped(c) && Debt(c) == 0
    ensures SendNext(c, HEADER, c.mtu, now) == (c, [])
  {
    hide FlushFrom, DataFrom, NextSendable;
    forall id | id in c.chans ensures !Pending(c.chans[id]) && Idle(c.chans[id]) { ChanPaid(c, id); }
    FlushQuiet(c, 0, HEADER, c.mtu);
    AllIdle(c, 0, HEADER, c.mtu, now);
    var none: seq<Frame> := [];
    assert none + none == none;
  }

  lemma ChanPaid(c: Conn, id: u8)
    requires ConnShaped(c) && id in c.chans && Debt(c) == 0
    ensures !Pending(c.chans[id]) && Idle(c.chans[id])
  {
    var ch := c.chans[id];
    ChanOwesSome(c, id, 256);
    var j := NextSendable(ch, ch.outHead);
    if j < SLOTS { SlotOwesSome(ch.out, j); }
    hide NextSendable, Owes, SlotsOwe;
  }

  lemma {:induction false} AllIdle(c: Conn, i: nat, pos: nat, mtu: nat, now: u32)
    requires ConnShaped(c) && forall id :: id in c.chans ==> Idle(c.chans[id])
    ensures DataFrom(c, i, pos, mtu, now) == (c, pos, [])
    decreases 256 - i
  {
    hide NextSendable, Transmit, PieceLen, FrameOf, Shaped;
    if i < 256 && pos + 9 <= mtu {
      assert i in c.chans ==> Idle(c.chans[i]);
      AllIdle(c, i + 1, pos, mtu, now);
    }
  }

  /** Asking for packets until nothing is owed: a message part of the way has then gone out
      altogether, at the time of the calls. */
  lemma GoesOut(c: Conn, id: u8, j: nat, m: Message, num: u16, k: nat, n: nat, t: u32)
    requires Sound(c) && Midway(c, id, j, m, num, k) && c.chans[id].kind == RELIABLE && n >= Debt(c)
    ensures var c1 := SendMany(c, n, t).0;
            var a := c.chans[id].out[j].attempts;
      Sound(c1) && Debt(c1) == 0 && WentOut(c1, id, j, m, num, t, if a == 0 then 1 else a) && c1.rt == c.rt
  {
    hide Sound, SendMany, Pieces, Debt;
    ManyPays(c, n, t);
    ManyOnward(c, n, t);
    var c1 := SendMany(c, n, t).0;
    assert Onward(c.chans[id], c1.chans[id], t);
    assert Progress(c.chans[id].out[j], c1.chans[id].out[j], t);
    SlotPaid(c1, id, j);
  }

  lemma SlotPaid(c: Conn, id: u8, j: nat)
    requires ConnShaped(c) && id in c.chans && j < SLOTS && c.chans[id].sender && c.chans[id].state == 1
    requires Debt(c) == 0
    ensures SlotOwes(c.chans[id].out[j]) == 0
  {
    ChanOwesSome(c, id, 256);
    SlotOwesSome(c.chans[id].out, j);
    hide Owes, SlotsOwe;
  }

  /** The connection after netchan_service. */
  function Serviced(c: Conn, now: u32): (r: Conn)
    requires ConnShaped(c)
    ensures ConnShaped(r) && r == c.(chans := r.chans) && r.chans.Keys == c.chans.Keys
  {
    ServiceEach(c, 0, now);
    Do(c, Service(now)).0
  }

  lemma ServicedChan(c: Conn, id: u8, now: u32)
    requires ConnShaped(c) && ConnCounted(c) && id in c.chans && c.chans[id].sender && c.chans[id].kind == RELIABLE
    ensures Served(c.chans[id], Serviced(c, now).chans[id], c.rt, now, 0)
  {
    hide Served, ConnCounted, Shaped;
    ServiceServes(c, now);
  }

  /** Its wait over and no slot of the channel at the end of its transmissions, the message is
      to be sent again, and asking for packets puts every fragment on the wire once more. */
  lemma LostIsResent(c: Conn, id: u8, j: nat, m: Message, num: u16, t: u32, a: nat, now: u32, n: nat, t1: u32)
    requires Sound(c) && ConnCounted(c) && WentOut(c, id, j, m, num, t, a) && t > 0 && 1 <= a < 5
    requires Wrap32(now - t) >= Backoff(c.rt, a) && !SomeSpent(c.chans[id], c.rt, now, 0, SLOTS - 1)
    requires n >= Debt(Serviced(c, now))
    ensures var c1 := Serviced(c, now);
      && Midway(c1, id, j, m, num, 0) && c1.chans[id].out[j].attempts == a + 1
      && Emitted(SendMany(c1, n, t1).1, id, num, m, Payload(c), 0)
      && WentOut(SendMany(c1, n, t1).0, id, j, m, num, t1, a + 1)
  {
    hide Sound, SendMany, Debt, Emitted, ConnCounted, SomeSpent, Backoff, Wrap32, Serviced, Pieces, Content;
    ServicedSound(c, now);
    Rearms(c, id, j, m, num, t, a, now);
    var c1 := Serviced(c, now);
    EmitsAll(c1, id, j, m, num, 0, n, t1);
    GoesOut(c1, id, j, m, num, 0, n, t1);
  }

  lemma ServicedSound(c: Conn, now: u32)
    requires ConnShaped(c) && Sound(c)
    ensures Sound(Serviced(c, now))
  {
    hide Sound, Shaped;
    DoSound(c, Service(now));
  }

  lemma Rearms(c: Conn, id: u8, j: nat, m: Message, num: u16, t: u32, a: nat, now: u32)
    requires ConnCounted(c) && WentOut(c, id, j, m, num, t, a) && t > 0 && 1 <= a
    requires Wrap32(now - t) >= Backoff(c.rt, a) && !SomeSpent(c.chans[id], c.rt, now, 0, SLOTS - 1)
    ensures var c1 := Serviced(c, now);
      && Midway(c1, id, j, m, num, 0) && c1.chans[id].out[j].attempts == a + 1 && c1.chans[id].kind == RELIABLE
  {
    hide Backoff, SomeSpent, Wrap32, ConnCounted, Served, Serviced, Pieces;
    ServicedChan(c, id, now);
    var c1 := Serviced(c, now);
    ServedSlot(c.chans[id], c1.chans[id], c.rt, now, j);
    BackToStart(c, c1, id, j, m, num, t, a, now);
  }

  lemma BackToStart(c: Conn, c1: Conn, id: u8, j: nat, m: Message, num: u16, t: u32, a: nat, now: u32)
    requires WentOut(c, id, j, m, num, t, a) && ConnShaped(c1) && c1 == c.(chans := c1.chans) && id in c1.chans
    requires var ch, ch1 := c.chans[id], c1.chans[id];
      ch1 == ch.(out := ch1.out) && ch1.out[j] == Rearmed(ch.out[j], now)
    ensures Midway(c1, id, j, m, num, 0)
  {
    PiecesSome(|m|, Payload(c));
    hide Pieces, Content;
  }

  lemma PiecesSome(len: nat, fp: nat)
    requires len > 0 && fp > 0
    ensures Pieces(len, fp) > 0
  {}

  lemma ServedSlot(ch: Chan, ch1: Chan, rt: nat, now: u32, j: nat)
    requires Shaped(ch) && Served(ch, ch1, rt, now, 0) && j < SLOTS && !SomeSpent(ch, rt, now, 0, SLOTS - 1)
    ensures ch1 == ch.(out := ch1.out) && |ch1.out| == SLOTS
    ensures ch1.out[j] == if Due(ch.out[j], rt, now) then Rearmed(ch.out[j], now) else ch.out[j]
  {
    hide Due, Spent;
    assert !SomeSpent(ch, rt, now, 0, j);
  }

  /** No fragment of slot `j` is among the frames. */
  ghost predicate FromOthers(c: Conn, fs: seq<Frame>, id: u8, j: nat)
    requires c.mtu > OVERHEAD
  {
    forall f :: f in fs && f.DataFrame? && f.id == id ==> exists i, x :: i != j && OwedBy(c, f, i, x)
  }

  /** Before its wait is over, and for ever if it went out when the clock read 0, the message
      stays as it is, and every DATA frame of its channel
      is a fragment of another slot. */
  lemma NotBeforeItsTime(c: Conn, id: u8, j: nat, m: Message, num: u16, t: u32, a: nat, now: u32, n: nat, t1: u32)
    requires ConnCounted(c) && WentOut(c, id, j, m, num, t, a) && 1 <= a
    requires t == 0 || Wrap32(now - t) < Backoff(c.rt, a)
    ensures var c1 := Serviced(c, now);
            var (c2, fs) := SendMany(c1, n, t1);
      && c1.chans[id].out[j] == c.chans[id].out[j] && FromOthers(c1, fs, id, j)
      && (c1.chans[id].state == 1 ==> WentOut(c2, id, j, m, num, t, a))
  {
    hide Backoff, SendMany, ConnCounted, Wrap32, Pieces, Serviced, Served, Content, FromOthers;
    ServicedChan(c, id, now);
    var c1 := Serviced(c, now);
    NotDueStays(c.chans[id], c1.chans[id], c.rt, now, j);
    AllSent(c1, id, j, n, t1);
    var c2 := SendMany(c1, n, t1).0;
    assert Onward(c1.chans[id], c2.chans[id], t1);
    assert c2.mtu == c.mtu && c2.pool.store == c.pool.store;
    SameBytes(c.pool, c2.pool, c.chans[id].out[j].buf, |m|);
  }

  lemma SameBytes(p: Pool, p1: Pool, b: int, n: nat)
    requires p1.store == p.store
    ensures Content(p1, b, n) == Content(p, b, n)
  {}

  lemma NotDueStays(ch: Chan, ch1: Chan, rt: nat, now: u32, j: nat)
    requires Shaped(ch) && Served(ch, ch1, rt, now, 0) && j < SLOTS && !Due(ch.out[j], rt, now)
    ensures ch1 == ch.(out := ch1.out, state := ch1.state) && |ch1.out| == SLOTS && ch1.out[j] == ch.out[j]
  {
    hide Due, SomeSpent;
  }

  /** Sending does nothing to a slot that has gone out. */
  lemma AllSent(c: Conn, id: u8, j: nat, n: nat, now: u32)
    requires ConnShaped(c) && id in c.chans && j < SLOTS && c.chans[id].kind == RELIABLE
    requires c.chans[id].out[j].fragSent == c.chans[id].out[j].fragTotal
    ensures var (c1, fs) := SendMany(c, n, now);
      && FromOthers(c, fs, id, j) && AllOnward(c, c1, now) && c1.chans[id].out[j] == c.chans[id].out[j]
  {
    hide SendMany;
    var (c1, fs) := SendMany(c, n, now);
    ManyOnward(c, n, now);
    assert Onward(c.chans[id], c1.chans[id], now);
    forall f | f in fs && f.DataFrame? && f.id == id ensures exists i, x :: i != j && OwedBy(c, f, i, x) {
      assert Owed(c, f);
      var i, x :| OwedBy(c, f, i, x);
      assert i != j;
    }
  }

  /** With nothing due on any channel and nothing owed, neither the timers nor any number of
      sends do anything. */
  lemma SilentUntilDue(c: Conn, now: u32, n: nat, t1: u32)
    requires ConnShaped(c) && ConnCounted(c) && Debt(c) == 0
    requires forall id, j :: id in c.chans && 0 <= j < SLOTS && c.chans[id].sender && c.chans[id].kind == RELIABLE ==>
               !Due(c.chans[id].out[j], c.rt, now)
    ensures Serviced(c, now) == c && SendMany(c, n, t1) == (c, [])
  {
    hide Due, SendMany;
    ServiceServes(c, now);
    var c1 := Do(c, Service(now)).0;
    hide Do;
    forall id | id in c.chans ensures c1.chans[id] == c.chans[id] {
      if c.chans[id].sender && c.chans[id].kind == RELIABLE { assert c1.chans[id].out == c.chans[id].out; }
    }
    assert c1.chans == c.chans;
    ManyNothing(c, n, t1);
  }

  lemma {:induction false} ManyNothing(c: Conn, n: nat, now: u32)
    requires ConnShaped(c) && Debt(c) == 0
    ensures SendMany(c, n, now) == (c, [])
    decreases n
  {
    hide SendNext, Debt, Shaped;
    if n > 0 {
      NothingOwed(c, now);
      ManyNothing(c, n - 1, now);
      var none: seq<Frame> := [];
      assert none + none == none;
    }
  }

  /** A channel is given up exactly when one of its slots has used its transmissions and
      waited in vain after the last; nothing more goes out on it. */
  lemma GivenUpExactly(c: Conn, id: u8, now: u32, n: nat, t1: u32)
    requires ConnShaped(c) && ConnCounted(c) && id in c.chans && c.chans[id].state == 1
    requires c.chans[id].sender && c.chans[id].kind == RELIABLE
    ensures var c1 := Serviced(c, now);
            var spent := exists j :: 0 <= j < SLOTS && Spent(c.chans[id].out[j], c.rt, now);
      && c1.chans[id].state == (if spent then 3 else 1)
      && (spent ==> NoneOf(SendMany(c1, n, t1).1, id))
  {
    hide Spent, Due, SendMany, ConnCounted;
    ServicedChan(c, id, now);
    var c1 := Serviced(c, now);
    hide Serviced;
    assert SomeSpent(c.chans[id], c.rt, now, 0, SLOTS - 1) <==>
      exists j :: 0 <= j < SLOTS && Spent(c.chans[id].out[j], c.rt, now);
    if c1.chans[id].state == 3 {
      ShutSendsNothing(c1, id, n, t1);
    }
  }

  predicate NoneOf(fs: seq<Frame>, id: u8) { forall f :: f in fs ==> !(f.DataFrame? && f.id == id) }

  lemma ShutSendsNothing(c: Conn, id: u8, n: nat, now: u32)
    requires ConnShaped(c) && id in c.chans && c.chans[id].state != 1
    ensures NoneOf(SendMany(c, n, now).1, id)
  {
    hide SendMany;
    ManyOnward(c, n, now);
    forall f | f in SendMany(c, n, now).1 ensures !(f.DataFrame? && f.id == id) { assert Owed(c, f); }
  }
}
