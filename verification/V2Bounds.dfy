/** Two ends with the same MTU never write past a message buffer. */
module V2Bounds {
  import opened Bytes
  import opened Finite
  import opened V2Channel
  import opened V2Fragments
  import opened V2Conn
  import opened V2System

  /** The fragments present are inside the buffer and none is longer than the fragment size. */
  predicate Short(f: Frag, fp: nat) {
    f.active ==>
      && f.total <= MAX_FRAGS == |f.offsets| && f.have == |f.mask|
      && forall i: nat :: i in f.mask ==>
           i < f.total && f.offsets[i] <= fp && Offset(i, fp) + f.offsets[i] <= MAX_MSG
  }

  predicate ChanShort(ch: Chan, fp: nat) {
    Shaped(ch) && forall i :: 0 <= i < FRAG_SLOTS ==> Short(ch.frags[i], fp)
  }

  predicate ConnShort(c: Conn) {
    ConnShaped(c) && !c.pool.overrun && forall id :: id in c.chans ==> ChanShort(c.chans[id], Payload(c))
  }

  predicate FrameShort(f: Frame, fp: nat) { f.DataFrame? ==> |f.data| <= fp }

  lemma SlotShort(p: Pool, ch: Chan, num: u16, total: nat, fp: nat)
    requires ChanShort(ch, fp)
    ensures ChanShort(FragSlot(p, ch, num, total).1, fp)
  {}

  lemma WriteShort(f: Frag, idx: nat, n: nat, fp: nat)
    requires Short(f, fp) && f.active && Fresh(f, idx, n, fp) && n <= fp
    ensures |f.offsets| == MAX_FRAGS && Short(FragWrite(f, idx, n), fp)
    ensures var g := FragWrite(f, idx, n); g.have == g.total ==> Inside(g)
  {
    hide Offset, Inside;
    var g := FragWrite(f, idx, n);
    if g.have == g.total { FullShort(g, fp); }
  }

  lemma FullShort(f: Frag, fp: nat)
    requires Short(f, fp) && f.active && f.have == f.total
    ensures Inside(f)
  {
    FullSet(f.mask, f.total);
    hide Offset;
    forall k | 0 <= k < f.total ensures f.offsets[k] <= fp && Offset(k, fp) + f.offsets[k] <= MAX_MSG {
      assert k in f.mask;
    }
    ShortFits(fp, f.offsets, f.total);
  }

  lemma NoneShort(fp: nat)
    ensures Short(NoFrag(), fp)
  {}

  lemma FragmentShort(p: Pool, ch: Chan, fp: nat, num: u16, idx: nat, total: nat, data: Message)
    requires ChanShort(ch, fp) && |data| <= fp
    ensures ChanShort(Fragment(p, ch, fp, num, idx, total, data).1, fp)
    ensures Contained(p, ch, fp, num, idx, total, data)
  {
    hide FragSlot, Short, FragWrite, Compact, Offset, Fresh, Inside, HandOn;
    SlotShort(p, ch, num, total, fp);
    NoneShort(fp);
    var (p1, c1, i) := FragSlot(p, ch, num, total);
    if i != FRAG_SLOTS && Fresh(c1.frags[i], idx, |data|, fp) {
      WriteShort(c1.frags[i], idx, |data|, fp);
    }
  }

  lemma DataShort(p: Pool, ch: Chan, fp: nat, num: u16, idx: nat, total: nat, data: Message)
    requires ChanShort(ch, fp) && |data| <= fp
    ensures ChanShort(Data(p, ch, fp, num, idx, total, data).1, fp)
    ensures total > 1 ==> Contained(p, ch, fp, num, idx, total, data)
  {
    hide Fragment, Arrive, Enqueue, Short, Contained;
    FragmentShort(p, ch, fp, num, idx, total, data);
  }

  lemma HearShort(c: Conn, f: Frame)
    requires ConnShort(c) && FrameShort(f, Payload(c))
    ensures ConnShort(Hear(c, f))
  {
    hide Data, Ack, Short, Contained;
    DoMarks(c, Feed(f));
    NoneShort(Payload(c));
    if f.DataFrame? && f.id in c.chans {
      DataShort(c.pool, c.chans[f.id], Payload(c), f.num, f.idx, f.total, f.data);
    }
  }

  /** Calls other than the arrival of a frame leave the fragments alone. */
  predicate SameFrags(c: Conn, c': Conn) {
    && c'.mtu == c.mtu && ConnShaped(c')
    && forall id :: id in c'.chans ==>
       if id in c.chans then c'.chans[id].frags == c.chans[id].frags else NoFrags(c'.chans[id])
  }

  predicate NoFrags(ch: Chan) { forall i :: 0 <= i < |ch.frags| ==> ch.frags[i] == NoFrag() }

  lemma SameShort(c: Conn, c': Conn)
    requires ConnShort(c) && SameFrags(c, c') && !c'.pool.overrun
    ensures ConnShort(c')
  {
    hide Short;
    NoneShort(Payload(c));
  }

  lemma SameSelf(c: Conn)
    requires ConnShaped(c)
    ensures SameFrags(c, c)
  {}

  lemma WithSame(c: Conn, id: u8, p: Pool, ch: Chan)
    requires ConnShaped(c) && Shaped(ch) && id in c.chans && ch.frags == c.chans[id].frags
    ensures SameFrags(c, With(c, id, p, ch))
  {}

  lemma SameChain(a: Conn, b: Conn, c: Conn)
    requires SameFrags(a, b) && SameFrags(b, c) && forall id :: id in a.chans ==> id in b.chans
    ensures SameFrags(a, c)
  {}

  lemma {:induction false} FlushSame(c: Conn, i: nat, pos: nat, mtu: nat)
    requires ConnShaped(c)
    ensures var c' := FlushFrom(c, i, pos, mtu).0; SameFrags(c, c') && forall id :: id in c.chans ==> id in c'.chans
    decreases 256 - i
  {
    hide Shaped, FlushAck, FlushWindow;
    if i >= 256 || pos + 6 > mtu {
    } else if i !in c.chans {
      FlushSame(c, i + 1, pos, mtu);
    } else {
      var (c1, pos1, fs1) := FlushAck(c.chans[i], i, pos, mtu);
      var (c2, pos2, fs2) := FlushWindow(c1, i, pos1, mtu);
      FlushSame(With(c, i, c.pool, c2), i + 1, pos2, mtu);
    }
  }

  predicate AllShort(fs: seq<Frame>, fp: nat) { forall k :: 0 <= k < |fs| ==> FrameShort(fs[k], fp) }

  lemma {:induction false} DataFromSame(c: Conn, i: nat, pos: nat, mtu: nat, now: u32)
    requires ConnShaped(c)
    ensures var (c', _, fs) := DataFrom(c, i, pos, mtu, now);
      SameFrags(c, c') && (forall id :: id in c.chans ==> id in c'.chans) && AllShort(fs, Payload(c))
    decreases 256 - i
  {
    hide NextSendable, Transmit, FrameOf, PieceLen, SameFrags, AllShort;
    SameSelf(c);
    NothingLong(Payload(c));
    if i >= 256 || pos + 9 > mtu {
    } else if i !in c.chans || !c.chans[i].sender || c.chans[i].state != 1 {
      DataFromSame(c, i + 1, pos, mtu, now);
    } else {
      var ch := c.chans[i];
      var j := NextSendable(ch, ch.outHead);
      if j == SLOTS {
        DataFromSame(c, i + 1, pos, mtu, now);
      } else {
        var n := PieceLen(ch.out[j], Payload(c));
        if pos + 8 + n <= mtu {
          var (p, ch1) := Transmit(c.pool, ch, j, now);
          PieceShort(c, i, j);
          hide Shaped;
          var k := With(c, i, p, ch1);
          WithSame(c, i, p, ch1);
          DataFromSame(k, i + 1, pos + 8 + n, mtu, now);
          var (c', _, fs) := DataFrom(k, i + 1, pos + 8 + n, mtu, now);
          SameChain(c, k, c');
          ShortCons(FrameOf(c, i, j), fs, Payload(c));
        }
      }
    }
  }

  lemma NothingLong(fp: nat)
    ensures AllShort([], fp)
  {}

  lemma ShortCons(f: Frame, fs: seq<Frame>, fp: nat)
    requires FrameShort(f, fp) && AllShort(fs, fp)
    ensures AllShort([f] + fs, fp)
  {}

  lemma PieceShort(c: Conn, id: u8, j: nat)
    requires ConnShaped(c) && id in c.chans && j < SLOTS
    ensures FrameShort(FrameOf(c, id, j), Payload(c))
  {
    hide Offset;
  }

  lemma {:induction false} ServiceSame(c: Conn, i: nat, now: u32)
    requires ConnShaped(c)
    ensures var c' := ServiceFrom(c, i, now); SameFrags(c, c') && forall id :: id in c.chans ==> id in c'.chans
    decreases 256 - i
  {
    hide Shaped, Retransmit;
    if i >= 256 {
    } else if i !in c.chans || !c.chans[i].sender || c.chans[i].kind != RELIABLE {
      ServiceSame(c, i + 1, now);
    } else {
      ServiceSame(With(c, i, c.pool, Retransmit(c.chans[i], c.rt, now, 0)), i + 1, now);
    }
  }

  lemma DoShort(c: Conn, call: Call)
    requires ConnShort(c) && !call.Feed?
    ensures var (c', fs) := Do(c, call); ConnShort(c') && c'.mtu == c.mtu && AllShort(fs, Payload(c))
  {
    hide Shaped, Short, Write, Read, FlushFrom, DataFrom, ServiceFrom, ChanShort;
    DoMarks(c, call);
    var (c', fs) := Do(c, call);
    match call
    case Send(pos, room, now) =>
      FlushSame(c, 0, pos, room);
      var (c1, pos1, fs1) := FlushFrom(c, 0, pos, room);
      FlushNoData(c, 0, pos, room);
      DataFromSame(c1, 0, pos1, room, now);
      SameChain(c, c1, c');
      SameShort(c, c');
    case Service(now) =>
      ServiceSame(c, 0, now);
      SameShort(c, c');
    case _ => SameShort(c, c');
  }

  // ----- both ends -----

  ghost predicate Bounded(s: Sys) {
    && ConnShort(s.a) && ConnShort(s.b) && s.a.mtu == s.b.mtu
    && (forall f :: f in s.fromA ==> FrameShort(f, Payload(s.a)))
    && (forall f :: f in s.fromB ==> FrameShort(f, Payload(s.b)))
  }

  lemma HappenBounded(s: Sys, e: Event)
    requires Bounded(s)
    ensures Bounded(Happen(s, e))
  {
    hide ConnShort, Do, Hear;
    ShortMtu(s.a);
    ShortMtu(s.b);
    match e
    case AtA(call) => if !call.Feed? { DoShort(s.a, call); }
    case AtB(call) => if !call.Feed? { DoShort(s.b, call); }
    case ToA(f) =>
      if !f.DataFrame? || f in s.fromB { HearShort(s.a, f); HearMtu(s.a, f); }
    case ToB(f) =>
      if !f.DataFrame? || f in s.fromA { HearShort(s.b, f); HearMtu(s.b, f); }
  }

  lemma ShortMtu(c: Conn)
    requires ConnShort(c)
    ensures ConnShaped(c)
  {}

  lemma HearMtu(c: Conn, f: Frame)
    requires ConnShaped(c)
    ensures Hear(c, f).mtu == c.mtu
  {}

  lemma {:induction false} RunBounded(s: Sys, es: seq<Event>)
    requires Bounded(s) && ConnShaped(s.a) && ConnShaped(s.b)
    ensures Bounded(RunSys(s, es))
  {
    hide Bounded;
    if es != [] {
      RunBounded(s, es[..|es| - 1]);
      HappenBounded(RunSys(s, es[..|es| - 1]), es[|es| - 1]);
    }
  }

  /** In every run of two ends with one MTU, neither ever writes past a buffer. */
  lemma NeverOverruns(mtu: nat, window: u32, window': u32, rt: nat, rt': nat, es: seq<Event>)
    requires mtu > OVERHEAD
    ensures var s0 := Start(mtu, window, window', rt, rt');
      ConnShaped(s0.a) && ConnShaped(s0.b) && var s := RunSys(s0, es); !s.a.pool.overrun && !s.b.pool.overrun
  {
    var s0 := Start(mtu, window, window', rt, rt');
    RunBounded(s0, es);
  }
}
