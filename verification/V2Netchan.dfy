/** The netchan-v2 connection object in place: the free stack and the buffers are arrays,
    channels are records updated where they lie, and every method is tied to the function
    that models it. */
module V2Netchan {
  import opened Bytes
  import opened Finite
  import opened V2Channel
  import opened V2Pool
  import opened V2Fragments
  import opened V2Conn

  /** Some slot holds a buffer, so the stack has room for it. */
  lemma StackHasRoom(p: Pool, ch: Chan, w: seq<Owner>, pl: Place)
    requires Owns(p, ch, w) && At(ch, pl) != NOBUF
    ensures 0 <= At(ch, pl) < BUFS && |p.free| < BUFS
  {
    var b := At(ch, pl);
    var s := p.free + [b];
    hide At, PoolShaped, Shaped;
    assert w[b] == Mine(pl);
    forall j, k | 0 <= j < k < |s| ensures s[j] != s[k] {
      assert w[s[j]] == Free(j);
      assert k < |p.free| ==> w[s[k]] == Free(k);
    }
    Pigeonhole(s, BUFS);
  }

  lemma PoolInitIs(f: seq<int>, s: seq<seq<u8>>)
    requires |f| == BUFS && forall k :: 0 <= k < BUFS ==> f[k] == k
    requires |s| == BUFS && forall k :: 0 <= k < BUFS ==> s[k] == Repeat(0, MAX_MSG)
    ensures PoolInit() == Pool(f, s, false)
  {
    hide Repeat;
    assert f == PoolInit().free;
    assert s == PoolInit().store;
  }

  lemma DataSkips(c: Conn, i: nat, pos: nat, room: nat, now: u32)
    requires ConnShaped(c) && i < 256 && pos + 9 <= room
    requires i !in c.chans || !c.chans[i].sender || c.chans[i].state != 1
    ensures DataFrom(c, i, pos, room, now) == DataFrom(c, i + 1, pos, room, now)
  {}

  lemma DataEnds(c: Conn, i: nat, pos: nat, room: nat, now: u32)
    requires ConnShaped(c) && (i >= 256 || pos + 9 > room)
    ensures DataFrom(c, i, pos, room, now) == (c, pos, [])
  {}

  class Connection {
    const free: array<int>
    const store: array<seq<u8>>
    const mtu: nat
    const window: u32
    const rt: nat
    var top: nat
    var chans: map<u8, Chan>
    var nextId: u8

    ghost predicate Based()
      reads this, free, store
    {
      && free.Length == BUFS && store.Length == BUFS && top <= BUFS && mtu > OVERHEAD
      && PoolShaped(PoolView()) && forall k :: 0 <= k < top ==> 0 <= free[k] < BUFS
    }

    ghost function PoolView(): Pool
      reads this, free, store
      requires top <= free.Length
    {
      Pool(free[..top], store[..], false)
    }

    ghost function View(): Conn
      reads this, free, store
      requires top <= free.Length
    {
      Conn(PoolView(), chans, mtu, window, rt, nextId)
    }

    ghost predicate Valid()
      reads this, free, store
    {
      Based() && Healthy(View())
    }

    lemma ValidOwns(id: u8)
      requires Valid() && id in chans
      ensures Owned(id) && ChanSafe(chans[id], mtu - OVERHEAD)
    {
      hide Owns, Tidy, Accounted, PoolShaped, FragSafe;
      ghost var hs :| Holds(View(), hs);
      assert Owns(View().pool, chans[id], SeenBy(hs, id));
    }

    /** Every buffer has one owner, seen from channel `id`. */
    ghost predicate Owned(id: u8)
      reads this, free, store
    {
      Based() && id in chans && Tidy(chans[id]) && exists w :: Owns(PoolView(), chans[id], w)
    }

    /** netchan_open and pool_init. */
    constructor (m: nat, win: u32, retransmit: nat, server: bool)
      requires m > OVERHEAD
      ensures Valid() && View() == NewConn(m, win, retransmit, server)
      ensures fresh(free) && fresh(store)
    {
      free := new int[BUFS];
      store := new seq<u8>[BUFS](i => Repeat(0, MAX_MSG));
      mtu, window, rt := m, win, retransmit;
      chans := map[];
      nextId := if server then 1 else 0;
      top := 0;
      new;
      for i := 0 to BUFS
        invariant forall k :: 0 <= k < i ==> free[k] == k
        invariant top == 0 && chans == map[] && nextId == if server then 1 else 0
        invariant forall k :: 0 <= k < BUFS ==> store[k] == Repeat(0, MAX_MSG)
      {
        free[i] := i;
      }
      top := BUFS;
      hide Sound;
      PoolInitIs(free[..], store[..]);
      assert free[..top] == free[..];
      NewConnSound(m, win, retransmit, server);
    }

    /** pool_get. */
    method PoolTake() returns (b: int)
      requires Based()
      modifies this`top
      ensures Based() && (PoolView(), b) == PoolGet(old(PoolView()))
      ensures if b == NOBUF then PoolView() == old(PoolView()) else 0 <= b < BUFS && top < BUFS
    {
      if top == 0 { return NOBUF; }
      top := top - 1;
      b := free[top];
      assert old(free[..top])[..top] == free[..top];
    }

    /** pool_put. */
    method PoolGive(b: int)
      requires Based() && (b != NOBUF ==> 0 <= b < BUFS && top < BUFS)
      modifies this`top, free
      ensures Based() && PoolView() == PoolPut(old(PoolView()), b)
    {
      if b == NOBUF { return; }
      free[top] := b;
      top := top + 1;
      assert free[..top] == old(free[..top]) + [b];
    }

    /** memcpy into a buffer. */
    method Fill(b: int, at: nat, data: seq<u8>)
      requires Based() && 0 <= b < BUFS && at + |data| <= MAX_MSG
      modifies store
      ensures Based() && PoolView() == Copy(old(PoolView()), b, at, data)
    {
      assert |store[b]| == |PoolView().store[b]| == MAX_MSG;
      store[b] := store[b][..at] + data + store[b][at + |data|..];
      assert store[..] == old(store[..])[b := Blit(old(store[b]), at, data)];
    }

    /** chan_recv_enqueue. */
    method RecvEnqueue(id: u8, data: Message) returns (ok: bool)
      requires Owned(id)
      modifies this`top, this`chans, store
      ensures Owned(id) && chans == old(chans)[id := chans[id]] && nextId == old(nextId)
      ensures (PoolView(), chans[id], ok) == Enqueue(old(PoolView()), old(chans[id]), data)
    {
      hide Owns, Tidy, Aside, Undisturbed, PoolShaped, Copy;
      ghost var w :| Owns(PoolView(), chans[id], w);
      ghost var w' := EnqueueOwns(PoolView(), chans[id], data, w);
      var ch := chans[id];
      assert Shaped(ch) by { OwnsShaped(PoolView(), ch, w); }
      var next := NextSlot(ch.rqTail);
      assert chans == chans[id := ch];
      if next == ch.rqHead { return false; }
      if |data| > MAX_MSG { return false; }
      var b := PoolTake();
      if b == NOBUF { return false; }
      Fill(b, 0, data);
      chans := chans[id := ch.(rq := ch.rq[ch.rqTail := Entry(b, |data|)], rqTail := next,
                               recvBuffered := Wrap32(ch.recvBuffered + |data|), arrived := ch.arrived + [data])];
      assert (PoolView(), chans[id], true) == Enqueue(old(PoolView()), old(chans[id]), data);
      assert Owns(PoolView(), chans[id], w');
      return true;
    }

    /** One turn of chan_deliver_reordered. */
    method DeliverNext(id: u8)
      requires Owned(id) && Awaited(chans[id])
      modifies this`top, this`chans, free, store
      ensures Owned(id) && chans == old(chans)[id := chans[id]]
      ensures (PoolView(), chans[id]) == DeliverOne(old(PoolView()), old(chans[id]))
    {
      hide Owns, Aside, Undisturbed, PoolShaped, Enqueue;
      ghost var w :| Owns(PoolView(), chans[id], w);
      ghost var w' := DeliverOneOwns(PoolView(), chans[id], w);
      var ch := chans[id];
      var slot := ch.recvSeq % SLOTS;
      var e := ch.reorder[slot];
      StackHasRoom(PoolView(), ch, w, HeldAt(slot));
      assert e.len <= MAX_MSG;
      assert |store[e.buf]| == MAX_MSG by { BufferSize(PoolView(), e.buf); }
      hide Tidy;
      assert store[e.buf][..e.len] == Content(PoolView(), e.buf, e.len);
      var ok := RecvEnqueue(id, store[e.buf][..e.len]);
      ghost var w1 :| Owns(PoolView(), chans[id], w1);
      assert At(chans[id], HeldAt(slot)) == e.buf;
      StackHasRoom(PoolView(), chans[id], w1, HeldAt(slot));
      PoolGive(e.buf);
      var c1 := chans[id];
      chans := chans[id := c1.(recvSeq := Next16(ch.recvSeq), kept := ch.kept + [ok],
                               reorder := c1.reorder[slot := e.(buf := NOBUF, valid := false)])];
      assert (PoolView(), chans[id]) == DeliverOne(old(PoolView()), old(chans[id]));
      assert Owns(PoolView(), chans[id], w');
    }

    /** chan_deliver_reordered. */
    method DeliverReordered(id: u8)
      requires Owned(id)
      modifies this`top, this`chans, free, store
      ensures Owned(id) && chans == old(chans)[id := chans[id]]
      ensures (PoolView(), chans[id]) == Deliver(old(PoolView()), old(chans[id]))
    {
      hide Owns, PoolShaped, DeliverOne;
      while Awaited(chans[id])
        invariant Owned(id) && chans == old(chans)[id := chans[id]]
        invariant Deliver(PoolView(), chans[id]) == Deliver(old(PoolView()), old(chans[id]))
        decreases Waiting(chans[id].reorder)
      {
        ghost var p, ch := PoolView(), chans[id];
        DeliverNext(id);
        WaitingClears(ch.reorder, ch.recvSeq % SLOTS, chans[id].reorder[ch.recvSeq % SLOTS]);
        assert Deliver(p, ch) == Deliver(PoolView(), chans[id]);
      }
    }

    /** The reorder branch of process_data. */
    method HoldBack(id: u8, num: u16, data: Message)
      requires Owned(id)
      modifies this`top, this`chans, store
      ensures Owned(id) && chans == old(chans)[id := chans[id]]
      ensures (PoolView(), chans[id]) == Hold(old(PoolView()), old(chans[id]), num, data)
    {
      hide Owns, Tidy, Aside, Undisturbed, PoolShaped, Copy;
      ghost var w :| Owns(PoolView(), chans[id], w);
      ghost var w' := HoldOwns(PoolView(), chans[id], num, data, w);
      var ch := chans[id];
      assert Shaped(ch) by { OwnsShaped(PoolView(), ch, w); }
      assert chans == chans[id := ch];
      var diff := Diff16(num, ch.recvSeq);
      var slot := num % SLOTS;
      if 0 < diff < SLOTS && !ch.reorder[slot].valid && |data| <= MAX_MSG {
        var b := PoolTake();
        if b != NOBUF {
          Fill(b, 0, data);
          chans := chans[id := ch.(reorder := ch.reorder[slot := Reorder(num, b, |data|, true)])];
          assert (PoolView(), chans[id]) == Hold(old(PoolView()), old(chans[id]), num, data);
          assert Owns(PoolView(), chans[id], w');
        }
      }
    }

    /** A whole reliable message. */
    method Arrived(id: u8, num: u16, data: Message)
      requires Owned(id)
      modifies this`top, this`chans, free, store
      ensures Owned(id) && chans == old(chans)[id := chans[id]]
      ensures (PoolView(), chans[id]) == Arrive(old(PoolView()), old(chans[id]), num, data)
    {
      hide Owns, Tidy, Aside, Undisturbed, PoolShaped, Deliver, Hold, Enqueue;
      ghost var w :| Owns(PoolView(), chans[id], w);
      OwnsShaped(PoolView(), chans[id], w);
      if num == chans[id].recvSeq {
        ghost var w' := AcceptOwns(PoolView(), chans[id], data, w);
        var kept := chans[id].kept;
        var ok := RecvEnqueue(id, data);
        chans := chans[id := chans[id].(recvSeq := Next16(num), kept := kept + [ok])];
        assert (PoolView(), chans[id]) == Accept(old(PoolView()), old(chans[id]), data);
        assert Owns(PoolView(), chans[id], w');
        DeliverReordered(id);
      } else {
        HoldBack(id, num, data);
      }
    }

    /** frag_find. */
    method FindFrag(id: u8, num: u16) returns (i: nat)
      requires id in chans && Shaped(chans[id])
      ensures i == FragFind(chans[id].frags, num, 0)
    {
      i := 0;
      while i < FRAG_SLOTS && !(chans[id].frags[i].active && chans[id].frags[i].num == num)
        invariant i <= FRAG_SLOTS && FragFind(chans[id].frags, num, i) == FragFind(chans[id].frags, num, 0)
      {
        i := i + 1;
      }
    }

    /** frag_find, else frag_alloc. */
    method FragFor(id: u8, num: u16, total: nat) returns (i: nat)
      requires Owned(id)
      modifies this`top, this`chans
      ensures Owned(id) && chans == old(chans)[id := chans[id]]
      ensures (PoolView(), chans[id], i) == FragSlot(old(PoolView()), old(chans[id]), num, total)
    {
      hide Owns, Tidy, Aside, Undisturbed, PoolShaped, FragFind, FragIdle;
      ghost var w :| Owns(PoolView(), chans[id], w);
      ghost var w' := FragSlotOwns(PoolView(), chans[id], num, total, w);
      OwnsShaped(PoolView(), chans[id], w);
      assert chans == chans[id := chans[id]];
      i := FindFrag(id, num);
      if i < FRAG_SLOTS { return; }
      if total > MAX_FRAGS { return FRAG_SLOTS; }
      i := IdleFrag(id);
      if i == FRAG_SLOTS { return; }
      var b := PoolTake();
      if b == NOBUF { return FRAG_SLOTS; }
      chans := chans[id := chans[id].(frags
          := chans[id].frags[i := Frag(num, total, 0, {}, b, Repeat(0, MAX_FRAGS), true)])];
      assert (PoolView(), chans[id], i) == FragSlot(old(PoolView()), old(chans[id]), num, total);
      assert Owns(PoolView(), chans[id], w');
    }

    method IdleFrag(id: u8) returns (i: nat)
      requires id in chans && Shaped(chans[id])
      ensures i == FragIdle(chans[id].frags, 0)
    {
      i := 0;
      while i < FRAG_SLOTS && chans[id].frags[i].active
        invariant i <= FRAG_SLOTS && FragIdle(chans[id].frags, i) == FragIdle(chans[id].frags, 0)
      {
        i := i + 1;
      }
    }

    /** The compaction loop, in place on buffer `b`. */
    method CompactAt(b: int, fp: nat, sizes: seq<nat>, total: nat) returns (pos: nat)
      requires Based() && 0 <= b < BUFS && Placed(fp, sizes, total) && Sum(sizes, total) <= MAX_MSG
      modifies store
      ensures Based() && pos <= MAX_MSG
      ensures var (s, n) := Compact(old(store[b]), fp, sizes, total, 0, 0);
        n == pos && PoolView() == Copy(old(PoolView()), b, 0, s)
    {
      hide Offset, Compact, PoolShaped, Part, Blit;
      BufferSize(PoolView(), b);
      OffsetZero(fp);
      pos := 0;
      var i := 0;
      ghost var s0 := store[b];
      while i < total
        invariant i <= total && Based() && |store[b]| == |s0| == MAX_MSG
        invariant store[..] == old(store[..])[b := store[b]]
        invariant pos == Sum(sizes, i)
        invariant Compact(store[b], fp, sizes, total, i, pos) == Compact(s0, fp, sizes, total, 0, 0)
      {
        SumGrows(sizes, i + 1, total);
        CompactTurn(store[b], fp, sizes, total, i, pos);
        var n, at := sizes[i], Offset(i, fp);
        assert at + n <= MAX_MSG;
        if pos != at {
          var d := store[b][at..at + n];
          PartIs(store[b], at, n);
          Fill(b, pos, d);
        }
        pos := pos + n;
        i := i + 1;
      }
      CompactEnds(store[b], fp, sizes, total, pos);
      BlitWhole(s0, store[b]);
    }

    /** Compact the fragments of slot `i` into a message. */
    method CompactFrag(id: u8, i: nat) returns (data: Message)
      requires Owned(id) && i < FRAG_SLOTS && chans[id].frags[i].active
      requires FragSafe(chans[id].frags[i], mtu - OVERHEAD) && chans[id].frags[i].have == chans[id].frags[i].total
      requires Inside(chans[id].frags[i])
      modifies store
      ensures Owned(id)
      ensures var f := chans[id].frags[i];
              var (s, n) := Compact(Buffer(old(PoolView()), f.buf), mtu - OVERHEAD, f.offsets, f.total, 0, 0);
        PoolView() == Copy(old(PoolView()), f.buf, 0, s) && data == Part(s, 0, n)
    {
      hide Owns, Aside, Undisturbed, PoolShaped, Compact, Copy;
      ghost var w :| Owns(PoolView(), chans[id], w);
      var fp := mtu - OVERHEAD;
      var f := chans[id].frags[i];
      StackHasRoom(PoolView(), chans[id], w, FragAt(i));
      BufferSize(PoolView(), f.buf);
      AllIn(f, fp);
      ghost var p0, ch0 := PoolView(), chans[id];
      hide FragSafe, Placed;
      var n := CompactAt(f.buf, fp, f.offsets, f.total);
      ghost var (s, m) := Compact(Buffer(p0, f.buf), fp, f.offsets, f.total, 0, 0);
      FragWriteOwns(p0, ch0, i, f, 0, s, w);
      assert ch0.(frags := ch0.frags[i := f]) == ch0;
      assert Owns(PoolView(), chans[id], w);
      CopyWhole(p0, f.buf, s);
      BufferSize(PoolView(), f.buf);
      data := store[f.buf][..n];
      assert store[f.buf] == s && data == Part(s, 0, n);
    }

    /** frag_free. */
    method FreeFrag(id: u8, i: nat)
      requires Owned(id) && i < FRAG_SLOTS && chans[id].frags[i].active
      modifies this`top, this`chans, free
      ensures Owned(id) && chans == old(chans)[id := chans[id]]
      ensures PoolView() == PoolPut(old(PoolView()), old(chans[id]).frags[i].buf)
      ensures chans[id] == old(chans[id]).(frags := old(chans[id]).frags[i := NoFrag()])
    {
      hide Owns, Aside, Undisturbed, PoolShaped;
      ghost var w :| Owns(PoolView(), chans[id], w);
      var ch := chans[id];
      ghost var p := PoolView();
      assert At(ch, FragAt(i)) == ch.frags[i].buf;
      StackHasRoom(p, ch, w, FragAt(i));
      PoolGive(ch.frags[i].buf);
      chans := chans[id := ch.(frags := ch.frags[i := NoFrag()])];
      FragDoneTail(p, ch, p, w, p, ch, w, PoolView(), chans[id], i);
      ghost var w' := Give(p, ch, w, PoolView(), chans[id], FragAt(i));
    }

    /** A complete message: compact, hand on, free the slot. */
    method FinishFrag(id: u8, i: nat)
      requires Owned(id) && i < FRAG_SLOTS && chans[id].frags[i].active
      requires FragSafe(chans[id].frags[i], mtu - OVERHEAD) && chans[id].frags[i].have == chans[id].frags[i].total
      requires Inside(chans[id].frags[i])
      modifies this`top, this`chans, free, store
      ensures Owned(id) && chans == old(chans)[id := chans[id]]
      ensures (PoolView(), chans[id]) == FragDone(old(PoolView()), old(chans[id]), mtu - OVERHEAD, i)
    {
      hide Owns, PoolShaped, Enqueue, Arrive, Compact, Copy, FragSafe, Tidy, Shaped, Inside;
      TidyShaped(chans[id]);
      CopyMarks(PoolView(), chans[id].frags[i].buf);
      var num := chans[id].frags[i].num;
      var data := CompactFrag(id, i);
      if chans[id].kind == UNRELIABLE {
        var _ := RecvEnqueue(id, data);
      } else {
        Arrived(id, num, data);
      }
      FreeFrag(id, i);
    }

    /** A fragment of a message. */
    method ProcessFragment(id: u8, num: u16, idx: nat, total: nat, data: Message)
      requires Owned(id) && ChanSafe(chans[id], mtu - OVERHEAD)
      requires Contained(PoolView(), chans[id], mtu - OVERHEAD, num, idx, total, data)
      modifies this`top, this`chans, free, store
      ensures Owned(id) && chans == old(chans)[id := chans[id]]
      ensures (PoolView(), chans[id])
              == Fragment(old(PoolView()), old(chans[id]), mtu - OVERHEAD, num, idx, total, data)
    {
      hide Owns, Aside, Undisturbed, PoolShaped, FragSlot, FragDone, Copy, Offset;
      var fp := mtu - OVERHEAD;
      TidyShaped(chans[id]);
      SlotSafe(PoolView(), chans[id], num, total, fp);
      ghost var p0, ch0 := PoolView(), chans[id];
      var i := FragFor(id, num, total);
      if i < FRAG_SLOTS {
        var f := chans[id].frags[i];
        if idx < f.total && idx !in f.mask {
          var off := idx * fp;
          assert off == Offset(idx, fp) by { OffsetIs(idx, fp); }
          if off + |data| <= MAX_MSG {
            ghost var w :| Owns(PoolView(), chans[id], w);
            ghost var p1, c1 := PoolView(), chans[id];
            StackHasRoom(p1, c1, w, FragAt(i));
            var g := f.(offsets := f.offsets[idx := |data|], mask := f.mask + {idx}, have := f.have + 1);
            assert g == FragWrite(f, idx, |data|);
            Fill(f.buf, off, data);
            chans := chans[id := chans[id].(frags := chans[id].frags[i := g])];
            FragWriteOwns(p1, c1, i, g, off, data, w);
            assert Owns(PoolView(), chans[id], w);
            WriteSafe(f, idx, |data|, fp);
            if g.have == g.total {
              FinishFrag(id, i);
            }
          }
        }
      }
    }

    /** process_data on an existing receiving channel, for a frame that does not complete a
        message longer than its buffer. */
    method ProcessData(id: u8, num: u16, idx: u8, total: u8, data: Message)
      requires Owned(id) && ChanSafe(chans[id], mtu - OVERHEAD)
      requires total > 1 ==> Contained(PoolView(), chans[id], mtu - OVERHEAD, num, idx, total, data)
      modifies this`top, this`chans, free, store
      ensures Owned(id) && chans == old(chans)[id := chans[id]]
      ensures (PoolView(), chans[id]) == Data(old(PoolView()), old(chans[id]), mtu - OVERHEAD, num, idx, total, data)
    {
      hide Owns, Tidy, Aside, Undisturbed, PoolShaped, Fragment, Arrive, Enqueue, ChanSafe, Shaped, Contained;
      TidyShaped(chans[id]);
      if chans[id].kind == UNRELIABLE {
        if total <= 1 {
          var _ := RecvEnqueue(id, data);
        } else {
          ProcessFragment(id, num, idx, total, data);
        }
        return;
      }
      if total <= 1 {
        Arrived(id, num, data);
      } else {
        ProcessFragment(id, num, idx, total, data);
      }
      ghost var p1, c1 := PoolView(), chans[id];
      ghost var w :| Owns(p1, c1, w);
      var ch := chans[id];
      chans := chans[id := ch.(needAck := true, ackSeq := if ch.recvSeq > 0 then ch.recvSeq - 1 else 0)];
      Relabel(p1, c1, w, chans[id]);
      assert Owns(PoolView(), chans[id], w);
    }

    /** netchan_chan_read. */
    method ReadMessage(id: u8, room: nat) returns (m: Message)
      requires Owned(id)
      modifies this`top, this`chans, free
      ensures Owned(id) && chans == old(chans)[id := chans[id]]
      ensures (PoolView(), chans[id], m) == Read(old(PoolView()), old(chans[id]), room)
    {
      hide Owns, Aside, Undisturbed, PoolShaped;
      var ch := chans[id];
      assert chans == chans[id := ch];
      if ch.sender || ch.rqHead == ch.rqTail { return []; }
      ghost var w :| Owns(PoolView(), chans[id], w);
      ghost var w' := ReadOwns(PoolView(), ch, room, w);
      RingShrinks(ch.rqHead, ch.rqTail, ch.rqHead);
      var e := ch.rq[ch.rqHead];
      StackHasRoom(PoolView(), ch, w, QueueAt(ch.rqHead));
      assert e.len <= MAX_MSG;
      BufferSize(PoolView(), e.buf);
      hide Tidy;
      var n := if e.len < room then e.len else room;
      m := store[e.buf][..n];
      assert m == Content(PoolView(), e.buf, n);
      PoolGive(e.buf);
      chans := chans[id := ch.(rq := ch.rq[ch.rqHead := NO_ENTRY], rqHead := NextSlot(ch.rqHead),
                               recvBuffered := Wrap32(ch.recvBuffered - n), needWindow := true, taken := ch.taken + 1)];
      assert (PoolView(), chans[id], m) == Read(old(PoolView()), ch, room);
      assert Owns(PoolView(), chans[id], w');
    }

    /** netchan_chan_write. */
    method WriteMessage(id: u8, data: Message) returns (r: Wrote)
      requires Owned(id)
      modifies this`top, this`chans, free, store
      ensures Owned(id) && chans == old(chans)[id := chans[id]]
      ensures (PoolView(), chans[id], r) == Write(old(PoolView()), old(chans[id]), mtu - OVERHEAD, data)
    {
      hide Owns, PoolShaped, Pieces, Tidy;
      var ch := chans[id];
      TidyShaped(ch);
      assert chans == chans[id := ch];
      if !ch.sender { return Refused; }
      if ch.state == 3 { return Closed; }
      if |data| == 0 { return Sent(0); }
      if |data| > MAX_MSG { return TooBig; }
      if ch.kind == RELIABLE && ch.state == 1 {
        if ch.inFlight + |data| > ch.sendWindow { return Flow; }
      }
      if NextSlot(ch.outTail) == ch.outHead { return Again; }
      r := PlaceMessage(id, data);
    }

    /** The message is admitted: fill the slot at the tail, if there is a buffer. */
    method PlaceMessage(id: u8, data: Message) returns (r: Wrote)
      requires Owned(id)
      requires chans[id].sender && chans[id].state != 3 && 0 < |data| <= MAX_MSG
               && NextSlot(chans[id].outTail) != chans[id].outHead
      requires chans[id].kind == RELIABLE && chans[id].state == 1 ==>
               chans[id].inFlight + |data| <= chans[id].sendWindow
      modifies this`top, this`chans, free, store
      ensures Owned(id) && chans == old(chans)[id := chans[id]]
      ensures (PoolView(), chans[id], r) == Write(old(PoolView()), old(chans[id]), mtu - OVERHEAD, data)
    {
      hide Owns, Aside, Undisturbed, PoolShaped, Copy, Pieces, Tidy, Wrap32, Next16, PoolGet, PoolPut;
      var fp := mtu - OVERHEAD;
      var ch := chans[id];
      TidyShaped(ch);
      ghost var w :| Owns(PoolView(), chans[id], w);
      ghost var w' := WriteOwns(PoolView(), ch, fp, data, w);
      ghost var p0 := PoolView();
      assert chans == chans[id := ch];
      var b := PoolTake();
      if b == NOBUF { return NoMem; }
      Fill(b, 0, data);
      var total := Pieces(|data|, fp) % 0x100;
      if total == 0 { total := 1; }
      if total > MAX_FRAGS {
        PoolGive(b);
        chans := chans[id := ch.(sendSeq := Next16(ch.sendSeq), out := ch.out[ch.outTail := NO_OUT])];
        r := TooBig;
      } else {
        chans := chans[id := ch.(sendSeq := Next16(ch.sendSeq),
                                 out := ch.out[ch.outTail := Out(ch.sendSeq, b, |data|, 0, 0, 0, total, true)],
                                 inFlight := if ch.kind == RELIABLE then Wrap32(ch.inFlight + |data|) else ch.inFlight,
                                 outTail := NextSlot(ch.outTail), written := ch.written + [data])];
        r := Sent(|data|);
      }
      assert (PoolView(), chans[id], r) == Write(p0, ch, fp, data);
      hide Write;
      assert Owns(PoolView(), chans[id], w');
    }

    /** Give back the buffer of outgoing slot `i`. */
    method ReleaseSlot(id: u8, i: nat)
      requires Owned(id) && i < SLOTS && chans[id].out[i].active
      modifies this`top, this`chans, free
      ensures Owned(id) && chans == old(chans)[id := chans[id]]
      ensures (PoolView(), chans[id]) == Release(old(PoolView()), old(chans[id]), i)
    {
      hide Owns, Aside, Undisturbed, PoolShaped;
      ghost var w :| Owns(PoolView(), chans[id], w);
      ghost var w' := ReleaseOwns(PoolView(), chans[id], i, w);
      var ch := chans[id];
      StackHasRoom(PoolView(), ch, w, OutAt(i));
      hide Tidy;
      PoolGive(ch.out[i].buf);
      chans := chans[id := ch.(out := ch.out[i := ch.out[i].(buf := NOBUF, active := false)])];
      assert Owns(PoolView(), chans[id], w');
    }

    /** process_ack on an existing sending channel. */
    method ProcessAck(id: u8, a: u16)
      requires Owned(id)
      modifies this`top, this`chans, free
      ensures Owned(id) && chans == old(chans)[id := chans[id]]
      ensures (PoolView(), chans[id]) == Ack(old(PoolView()), old(chans[id]), a)
    {
      hide Owns, Aside, Undisturbed, PoolShaped, Release, Acked, Advance;
      assert chans == chans[id := chans[id]];
      var i := 0;
      while i < SLOTS
        invariant i <= SLOTS && Owned(id) && chans == old(chans)[id := chans[id]]
        invariant AckFrom(PoolView(), chans[id], a, i) == AckFrom(old(PoolView()), old(chans[id]), a, 0)
      {
        if Acked(chans[id].out[i], a) {
          AckSlot(id, a, i);
        }
        i := i + 1;
      }
      AdvanceHead(id);
    }

    /** One acknowledged slot. */
    method AckSlot(id: u8, a: u16, i: nat)
      requires Owned(id) && i < SLOTS && Acked(chans[id].out[i], a)
      modifies this`top, this`chans, free
      ensures Owned(id) && chans == old(chans)[id := chans[id]]
      ensures AckFrom(PoolView(), chans[id], a, i + 1) == AckFrom(old(PoolView()), old(chans[id]), a, i)
    {
      hide Owns, Aside, Undisturbed, PoolShaped;
      var ch := chans[id];
      ReleaseSlot(id, i);
      ghost var w :| Owns(PoolView(), chans[id], w);
      ghost var c1 := chans[id];
      chans := chans[id := chans[id].(inFlight := Wrap32(ch.inFlight - ch.out[i].len))];
      Relabel(PoolView(), c1, w, chans[id]);
      assert Owns(PoolView(), chans[id], w);
    }

    /** Move the head past cleared slots. */
    method AdvanceHead(id: u8)
      requires Owned(id)
      modifies this`chans
      ensures Owned(id) && chans == old(chans)[id := chans[id]]
      ensures chans[id] == old(chans[id]).(outHead
              := Advance(old(chans[id]).out, old(chans[id]).outHead, old(chans[id]).outTail))
    {
      hide Owns, Aside, Undisturbed, PoolShaped;
      ghost var w :| Owns(PoolView(), chans[id], w);
      AdvanceOwns(PoolView(), chans[id], w);
      var ch := chans[id];
      TidyShaped(ch);
      hide Tidy;
      var h: nat := ch.outHead;
      while h != ch.outTail && !ch.out[h].active
        invariant h < SLOTS && Advance(ch.out, h, ch.outTail) == Advance(ch.out, ch.outHead, ch.outTail)
        decreases Distance(h, ch.outTail)
      {
        h := NextSlot(h);
      }
      chans := chans[id := ch.(outHead := h)];
      assert Owns(PoolView(), chans[id], w);
    }

    /** One received frame. */
    method Feed(f: Frame)
      requires Valid() && FrameContained(View(), f)
      modifies this`top, this`chans, free, store
      ensures Valid() && View() == Hear(old(View()), f)
    {
      hide Healthy, PoolShaped, Data, Ack, Shaped, Contained;
      HearHealthy(View(), f);
      if f.id !in chans {
        if f.OpenFrame? && |chans| < MAX_CHAN {
          chans := chans[f.id := NewChan(f.kind, !f.theySend, 1, window)];
        }
        return;
      }
      ValidOwns(f.id);
      match f
      case DataFrame(id, num, idx, total, data) =>
        if !chans[id].sender { ProcessData(id, num, idx, total, data); }
      case AckFrame(id, num) =>
        if chans[id].sender { ProcessAck(id, num); }
      case WindowFrame(id, window) =>
        var ch := chans[id];
        if ch.sender {
          chans := chans[id := ch.(sendWindow := window, state := if ch.state == 0 then 1 else ch.state)];
        }
      case OpenFrame(id, kind, theySend) =>
      case CloseFrame(id) =>
        chans := chans[id := chans[id].(state := 3)];
    }

    /** netchan_chan_open. */
    method Open(kind: u8, send: bool)
      requires Valid()
      modifies this`chans, this`nextId
      ensures Valid() && View() == OpenChan(old(View()), kind, send)
    {
      hide Healthy, PoolShaped, NewChan, Shaped;
      DoHealthy(View(), Call.Open(kind, send));
      var id := nextId;
      if id in chans { return; }
      nextId := if id >= 254 then id - 254 else id + 2;
      if |chans| >= MAX_CHAN { return; }
      chans := chans[id := NewChan(kind, send, if send then 0 else 1, window)];
    }

    /** netchan_chan_close. */
    method Close(id: u8)
      requires Valid()
      modifies this`chans
      ensures Valid() && View() == CloseChan(old(View()), id)
    {
      hide Healthy, PoolShaped, Shaped;
      DoHealthy(View(), Call.Close(id));
      if id !in chans || chans[id].state >= 2 { return; }
      chans := chans[id := chans[id].(state := 2)];
    }

    /** netchan_chan_write. */
    method ChanWrite(id: u8, data: Message) returns (r: Wrote)
      requires Valid()
      modifies this`top, this`chans, free, store
      ensures Valid() && (View(), r) == WriteTo(old(View()), id, data)
    {
      hide Healthy, PoolShaped, Write, Shaped;
      DoHealthy(View(), WriteCall(id, data));
      if id !in chans { return Refused; }
      ValidOwns(id);
      r := WriteMessage(id, data);
    }

    /** netchan_chan_read. */
    method ChanRead(id: u8, room: nat) returns (m: Message)
      requires Valid()
      modifies this`top, this`chans, free
      ensures Valid() && (View(), m) == ReadFrom(old(View()), id, room)
    {
      hide Healthy, PoolShaped, Read, Shaped;
      DoHealthy(View(), ReadCall(id, room));
      if id !in chans { return []; }
      ValidOwns(id);
      m := ReadMessage(id, room);
    }

    /** The pending acknowledgement and window update of one channel. */
    method FlushChannel(id: u8, pos: nat, room: nat) returns (end: nat, frames: seq<Frame>)
      requires Valid() && id in chans
      modifies this`chans
      ensures Valid()
      ensures var (c1, pos1, fs1) := FlushAck(old(chans[id]), id, pos, room);
              var (c2, pos2, fs2) := FlushWindow(c1, id, pos1, room);
        end == pos2 && frames == fs1 + fs2 && View() == With(old(View()), id, old(PoolView()), c2)
    {
      hide Healthy, PoolShaped, Shaped;
      FlushHealthy(View(), id, pos, room);
      end, frames := pos, [];
      var ch := chans[id];
      if ch.needAck && end + 4 <= room {
        frames := frames + [AckFrame(id, ch.ackSeq)];
        end := end + 4;
        ch := ch.(needAck := false);
      }
      if ch.needWindow && end + 6 <= room {
        frames := frames + [WindowFrame(id, if ch.recvWindow > ch.recvBuffered then ch.recvWindow - ch.recvBuffered
            else 0)];
        end := end + 6;
        ch := ch.(needWindow := false);
      }
      chans := chans[id := ch];
    }

    /** The acknowledgement loop of netchan_send_next. */
    method FlushAll(pos: nat, room: nat) returns (end: nat, frames: seq<Frame>)
      requires Valid()
      modifies this`chans
      ensures Valid() && (View(), end, frames) == FlushFrom(old(View()), 0, pos, room)
    {
      hide Healthy, PoolShaped, Shaped, FlushAck, FlushWindow;
      end, frames := pos, [];
      var i: nat := 0;
      ghost var all := FlushFrom(View(), 0, pos, room);
      assert frames + all.2 == all.2;
      while i < 256 && end + 6 <= room
        invariant 0 <= i <= 256 && Valid()
        invariant var (c, e, fs) := FlushFrom(View(), i, end, room); all == (c, e, frames + fs)
        decreases 256 - i
      {
        if i in chans {
          ghost var c0, e0 := View(), end;
          var fs;
          end, fs := FlushChannel(i, end, room);
          FlushUnfolds(c0, i, e0, room);
          ghost var rest := FlushFrom(View(), i + 1, end, room);
          assert frames + (fs + rest.2) == frames + fs + rest.2;
          frames := frames + fs;
        }
        i := i + 1;
      }
      assert frames + [] == frames;
    }

    /** chan_next_sendable. */
    method NextToSend(id: u8) returns (j: nat)
      requires id in chans && Shaped(chans[id])
      ensures j == NextSendable(chans[id], chans[id].outHead)
    {
      var ch := chans[id];
      var i: nat := ch.outHead;
      while i != ch.outTail
        invariant i < SLOTS && NextSendable(ch, i) == NextSendable(ch, ch.outHead)
        decreases Distance(i, ch.outTail)
      {
        if ch.out[i].active && ch.out[i].fragSent < ch.out[i].fragTotal { return i; }
        i := NextSlot(i);
      }
      return SLOTS;
    }

    /** Count a fragment of slot `j` as sent. */
    method SendFragment(id: u8, j: nat, now: u32)
      requires Owned(id) && j < SLOTS && chans[id].out[j].active
      modifies this`top, this`chans, free
      ensures Owned(id) && chans == old(chans)[id := chans[id]]
      ensures (PoolView(), chans[id]) == Transmit(old(PoolView()), old(chans[id]), j, now)
    {
      hide Owns, Aside, Undisturbed, PoolShaped, Tidy, Release, Advance;
      var ch := chans[id];
      TidyShaped(ch);
      ghost var w :| Owns(PoolView(), ch, w);
      var o := Sending(ch.out[j], now);
      TouchOwns(PoolView(), ch, j, o, w);
      chans := chans[id := ch.(out := ch.out[j := o])];
      assert Owns(PoolView(), chans[id], w);
      if o.fragSent >= o.fragTotal && ch.kind == UNRELIABLE {
        ReleaseSlot(id, j);
        AdvanceHead(id);
      }
    }

    /** The DATA loop of netchan_send_next. */
    method SendData(pos: nat, room: nat, now: u32) returns (end: nat, frames: seq<Frame>)
      requires Valid()
      modifies this`top, this`chans, free
      ensures Valid() && (View(), end, frames) == DataFrom(old(View()), 0, pos, room, now)
    {
      hide Healthy, PoolShaped, Shaped, DataFrom;
      end, frames := pos, [];
      var i: nat := 0;
      ghost var all := DataFrom(View(), 0, pos, room, now);
      assert frames + all.2 == all.2;
      while i < 256 && end + 9 <= room
        invariant 0 <= i <= 256 && Valid()
        invariant var (c, e, fs) := DataFrom(View(), i, end, room, now); all == (c, e, frames + fs)
        decreases 256 - i
      {
        if i in chans && chans[i].sender && chans[i].state == 1 {
          var full, fs;
          full, end, fs := SendChannel(i, end, room, now);
          ghost var rest := DataFrom(View(), i + 1, end, room, now);
          assert !full ==> frames + (fs + rest.2) == frames + fs + rest.2;
          if full {
            assert frames + [] == frames;
            return;
          }
          frames := frames + fs;
        } else {
          DataSkips(View(), i, end, room, now);
        }
        i := i + 1;
      }
      DataEnds(View(), i, end, room, now);
      assert frames + [] == frames;
    }

    /** The next fragment of one channel, if it has one; `full` when it does not fit. */
    method SendChannel(id: u8, pos: nat, room: nat, now: u32) returns (full: bool, end: nat, fs: seq<Frame>)
      requires Valid() && id in chans && chans[id].sender && chans[id].state == 1 && pos + 9 <= room
      modifies this`top, this`chans, free
      ensures Valid()
      ensures full ==> View() == old(View()) && end == pos && DataFrom(View(), id, pos, room, now) == (View(), pos, [])
      ensures !full ==>
        var (c, e, rest) := DataFrom(View(), id + 1, end, room, now);
        DataFrom(old(View()), id, pos, room, now) == (c, e, fs + rest)
    {
      hide Healthy, PoolShaped, PieceLen, FrameOf, NextSendable, Transmit;
      ValidOwns(id);
      full, end, fs := false, pos, [];
      var j := NextToSend(id);
      if j == SLOTS {
        ghost var rest := DataFrom(View(), id + 1, end, room, now);
        assert fs + rest.2 == rest.2;
        return;
      }
      var n := PieceLen(chans[id].out[j], mtu - OVERHEAD);
      if n > room - pos - 8 {
        full := true;
        return;
      }
      var f := ReadFrame(id, j);
      fs := [f];
      TransmitHealthy(View(), id, j, now);
      SendFragment(id, j, now);
      end := pos + 8 + n;
    }

    /** The DATA frame for the next fragment of slot `j`. */
    method ReadFrame(id: u8, j: nat) returns (f: Frame)
      requires Valid() && id in chans && j < SLOTS
      ensures f == FrameOf(View(), id, j)
    {
      hide Healthy, PoolShaped;
      var o := chans[id].out[j];
      var b: seq<u8> := if 0 <= o.buf < BUFS then store[o.buf] else [];
      f := DataFrame(id, o.num, o.fragSent % 0x100, o.fragTotal % 0x100,
                     Part(b, Offset(o.fragSent, mtu - OVERHEAD), PieceLen(o, mtu - OVERHEAD)));
    }

    /** netchan_send_next after `pos` bytes of header and control frames. */
    method Send(pos: nat, room: nat, now: u32) returns (frames: seq<Frame>)
      requires Valid()
      modifies this`top, this`chans, free
      ensures Valid() && (View(), frames) == SendNext(old(View()), pos, room, now)
    {
      hide Healthy, PoolShaped, FlushFrom, DataFrom;
      var end, acks := FlushAll(pos, room);
      var _, data := SendData(end, room, now);
      frames := acks + data;
    }

    /** The retransmission loop of netchan_service over one channel's slots. */
    method RetransmitChannel(id: u8, now: u32)
      requires id in chans && Shaped(chans[id])
      modifies this`chans
      ensures chans == old(chans)[id := Retransmit(old(chans[id]), rt, now, 0)]
    {
      hide Timeout, Wrap32, Retransmit;
      var ch := chans[id];
      var j: nat := 0;
      var dead := false;
      while j < SLOTS && !dead
        invariant j <= SLOTS && Shaped(ch) && chans == old(chans)
        invariant Retransmit(old(chans[id]), rt, now, 0) == if dead then ch else Retransmit(ch, rt, now, j)
        decreases SLOTS - j, !dead
      {
        var o := ch.out[j];
        RetransmitUnfolds(ch, rt, now, j);
        if !o.active || o.sentMs == 0 || Wrap32(now - o.sentMs) < Timeout(rt, o.attempts) {
          j := j + 1;
        } else if o.attempts >= MAX_RT_ATTEMPTS {
          ch := ch.(state := 3);
          dead := true;
        } else {
          ch := ch.(out := ch.out[j := o.(fragSent := 0, sentMs := now, attempts := o.attempts + 1)]);
          j := j + 1;
        }
      }
      RetransmitEnds(ch, rt, now);
      chans := chans[id := ch];
    }

    /** The retransmission part of netchan_service. */
    method Service(now: u32)
      requires Valid()
      modifies this`chans
      ensures Valid() && View() == ServiceFrom(old(View()), 0, now)
    {
      hide Healthy, PoolShaped, Retransmit;
      ghost var all := ServiceFrom(View(), 0, now);
      var i: nat := 0;
      while i < 256
        invariant 0 <= i <= 256 && Valid() && ServiceFrom(View(), i, now) == all
      {
        if i in chans && chans[i].sender && chans[i].kind == RELIABLE {
          RetransmitHealthy(View(), i, now);
          ghost var c0 := View();
          RetransmitChannel(i, now);
          assert View() == With(c0, i, c0.pool, Retransmit(c0.chans[i], rt, now, 0));
        }
        i := i + 1;
      }
    }
  }

  /** Conservation, and no fragment outside its buffer. */
  ghost predicate Healthy(c: Conn)
    ensures Healthy(c) ==> ConnShaped(c)
  {
    ConnShaped(c) && Sound(c) && AllSafe(c)
  }

  /** The fragments present lie inside the buffer. */
  predicate FragSafe(f: Frag, fp: nat) {
    f.active ==>
      && f.total <= MAX_FRAGS == |f.offsets| && f.have == |f.mask|
      && forall i: nat :: i in f.mask ==> i < f.total && Offset(i, fp) + f.offsets[i] <= MAX_MSG
  }

  predicate ChanSafe(ch: Chan, fp: nat)
    requires Shaped(ch)
  {
    forall i :: 0 <= i < FRAG_SLOTS ==> FragSafe(ch.frags[i], fp)
  }

  predicate AllSafe(c: Conn) {
    ConnShaped(c) && forall id :: id in c.chans ==> ChanSafe(c.chans[id], Payload(c))
  }

  lemma FragmentSafe(p: Pool, ch: Chan, fp: nat, num: u16, idx: nat, total: nat, data: Message)
    requires Shaped(ch) && ChanSafe(ch, fp)
    ensures ChanSafe(Fragment(p, ch, fp, num, idx, total, data).1, fp)
  {
    hide FragSlot, FragSafe, FragWrite, Compact, Offset;
    SlotSafe(p, ch, num, total, fp);
    var (p1, c1, i) := FragSlot(p, ch, num, total);
    if i != FRAG_SLOTS && Fresh(c1.frags[i], idx, |data|, fp) {
      WriteSafe(c1.frags[i], idx, |data|, fp);
      EmptySafe(fp);
    }
  }

  lemma EmptySafe(fp: nat)
    ensures FragSafe(NoFrag(), fp)
  {}

  lemma HearHealthy(c: Conn, f: Frame)
    requires Healthy(c)
    ensures Healthy(Hear(c, f))
  {
    hide Sound, FragSafe, Ack, Fragment, Arrive, Enqueue, Shaped;
    HearSound(c, f);
    EmptySafe(Payload(c));
    if f.DataFrame? && f.id in c.chans && !c.chans[f.id].sender && f.total > 1 {
      FragmentSafe(c.pool, c.chans[f.id], Payload(c), f.num, f.idx, f.total, f.data);
    }
  }

  /** Calls other than the arrival of a frame leave the fragments alone. */
  lemma DoHealthy(c: Conn, call: Call)
    requires Healthy(c) && !call.Feed? && !call.Send? && !call.Service?
    ensures Healthy(Do(c, call).0)
  {
    hide Sound, FragSafe, Shaped, Write, Read;
    DoSound(c, call);
    EmptySafe(Payload(c));
  }

  lemma RetransmitUnfolds(ch: Chan, rt: nat, now: u32, j: nat)
    requires Shaped(ch) && j < SLOTS
    ensures Retransmit(ch, rt, now, j) ==
      (var o := ch.out[j];
       if !o.active || o.sentMs == 0 || Wrap32(now - o.sentMs) < Timeout(rt, o.attempts)
           then Retransmit(ch, rt, now, j + 1)
       else if o.attempts >= MAX_RT_ATTEMPTS then ch.(state := 3)
       else Retransmit(ch.(out := ch.out[j := o.(fragSent := 0, sentMs := now, attempts := o.attempts + 1)]), rt,
           now, j + 1))
  {}

  lemma RetransmitEnds(ch: Chan, rt: nat, now: u32)
    requires Shaped(ch)
    ensures Retransmit(ch, rt, now, SLOTS) == ch
  {}

  lemma FlushUnfolds(c: Conn, i: u8, pos: nat, mtu: nat)
    requires ConnShaped(c) && i in c.chans && pos + 6 <= mtu
    ensures var (c1, pos1, fs1) := FlushAck(c.chans[i], i, pos, mtu);
            var (c2, pos2, fs2) := FlushWindow(c1, i, pos1, mtu);
            var (c', pos', fs) := FlushFrom(With(c, i, c.pool, c2), i + 1, pos2, mtu);
      FlushFrom(c, i, pos, mtu) == (c', pos', fs1 + fs2 + fs)
  {}

  lemma FlushHealthy(c: Conn, i: u8, pos: nat, mtu: nat)
    requires Healthy(c) && i in c.chans
    ensures var (c1, pos1, fs1) := FlushAck(c.chans[i], i, pos, mtu);
            var (c2, pos2, fs2) := FlushWindow(c1, i, pos1, mtu);
      Healthy(With(c, i, c.pool, c2))
  {
    hide Sound, FragSafe, FlushAck, FlushWindow;
    var (c1, pos1, fs1) := FlushAck(c.chans[i], i, pos, mtu);
    var (c2, pos2, fs2) := FlushWindow(c1, i, pos1, mtu);
    RelabelSound(c, i, c2);
  }

  lemma TransmitHealthy(c: Conn, id: u8, j: nat, now: u32)
    requires Healthy(c) && id in c.chans && j < SLOTS && c.chans[id].out[j].active
    ensures var (p, ch) := Transmit(c.pool, c.chans[id], j, now); Healthy(With(c, id, p, ch))
  {
    hide Sound, FragSafe, Transmit;
    TransmitSound(c, id, j, now);
  }

  lemma RetransmitHealthy(c: Conn, i: u8, now: u32)
    requires Healthy(c) && i in c.chans && c.chans[i].sender
    ensures Healthy(With(c, i, c.pool, Retransmit(c.chans[i], c.rt, now, 0)))
  {
    hide FragSafe, Retransmit;
    RetransmitSound(c, i, now);
    hide Sound;
  }

  lemma CopyMarks(p: Pool, b: int)
    ensures forall s: seq<u8> :: Copy(p, b, 0, s).overrun == p.overrun
  {}

  lemma AllIn(f: Frag, fp: nat)
    requires FragSafe(f, fp) && f.active && f.have == f.total
    ensures Placed(fp, f.offsets, f.total)
  {
    FullSet(f.mask, f.total);
    hide Offset;
    forall k | 0 <= k < f.total ensures Offset(k, fp) + f.offsets[k] <= MAX_MSG {
      assert k in f.mask;
    }
  }

  lemma TidyShaped(ch: Chan)
    requires Tidy(ch)
    ensures Shaped(ch)
  {}

  lemma PartIs(s: seq<u8>, at: nat, n: nat)
    requires at + n <= |s|
    ensures Part(s, at, n) == s[at..at + n]
  {}

  lemma BlitWhole(s: seq<u8>, t: seq<u8>)
    requires |s| == |t|
    ensures Blit(s, 0, t) == t
  {}

  lemma OffsetZero(fp: nat)
    ensures Offset(0, fp) == 0
  {}

  lemma OffsetIs(i: nat, fp: nat)
    ensures Offset(i, fp) == i * fp
  {}

  lemma CopyWhole(p: Pool, b: int, s: seq<u8>)
    requires PoolShaped(p) && 0 <= b < BUFS && |s| == MAX_MSG
    ensures Copy(p, b, 0, s).store[b] == s && PoolShaped(Copy(p, b, 0, s))
  {}

  lemma SlotSafe(p: Pool, ch: Chan, num: u16, total: nat, fp: nat)
    requires Shaped(ch) && ChanSafe(ch, fp)
    ensures ChanSafe(FragSlot(p, ch, num, total).1, fp)
  {}

  lemma WriteSafe(f: Frag, idx: nat, n: nat, fp: nat)
    requires FragSafe(f, fp) && f.active && Fresh(f, idx, n, fp)
    ensures |f.offsets| == MAX_FRAGS && FragSafe(FragWrite(f, idx, n), fp)
  {
    hide Offset;
  }

  lemma BufferSize(p: Pool, b: int)
    requires PoolShaped(p) && 0 <= b < BUFS
    ensures |p.store[b]| == MAX_MSG
  {}

  lemma OwnsShaped(p: Pool, ch: Chan, w: seq<Owner>)
    requires Owns(p, ch, w)
    ensures Shaped(ch)
  {}
}
