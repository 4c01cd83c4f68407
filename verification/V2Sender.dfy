/** What a netchan-v2 sending channel keeps in its slots, and what it puts on the wire. */
module V2Sender {
  import opened Bytes
  import opened V2Channel
  import opened V2Pool
  import opened V2Fragments
  import opened V2Receiver

  /** A slot in use holds the message of its number, whole. */
  predicate SlotSends(p: Pool, o: Out, fp: nat, written: seq<Message>) {
    && o.num < |written| && o.len == |written[o.num]| && 0 < o.len <= MAX_MSG
    && fp > 0 && o.fragTotal == Pieces(o.len, fp)
    && Content(p, o.buf, o.len) == written[o.num]
  }

  predicate Sends(p: Pool, ch: Chan, fp: nat) {
    && Shaped(ch)
    && (Few(ch.written) ==>
          && ch.sendSeq == |ch.written|
          && forall i :: 0 <= i < SLOTS && ch.out[i].active ==> SlotSends(p, ch.out[i], fp, ch.written))
  }

  lemma SlotKept(p: Pool, ch: Chan, p': Pool, ch': Chan, but: set<Place>, fp: nat, i: nat)
    requires Tidy(ch) && Shaped(ch') && i < SLOTS && ch.out[i].active && SlotSends(p, ch.out[i], fp, ch.written)
    requires Undisturbed(p, ch, p', ch', but) && OutAt(i) !in but
    ensures SlotSends(p', ch.out[i], fp, ch.written)
  {
    assert At(ch, OutAt(i)) == ch.out[i].buf != NOBUF;
  }

  lemma SendsKept(p: Pool, ch: Chan, p': Pool, ch': Chan, fp: nat)
    requires Tidy(ch) && Sends(p, ch, fp) && Shaped(ch') && Undisturbed(p, ch, p', ch', {})
    requires ch'.out == ch.out && ch'.sendSeq == ch.sendSeq && ch'.written == ch.written
    ensures Sends(p', ch', fp)
  {
    if Few(ch.written) {
      forall i | 0 <= i < SLOTS && ch'.out[i].active ensures SlotSends(p', ch'.out[i], fp, ch.written) {
        SlotKept(p, ch, p', ch', {}, fp, i);
      }
    }
  }

  lemma WriteSends(p: Pool, ch: Chan, fp: nat, data: Message, w: seq<Owner>) returns (w': seq<Owner>)
    requires Owns(p, ch, w) && Tidy(ch) && Sends(p, ch, fp) && Admissible(fp)
    ensures var (p1, c1, res) := Write(p, ch, fp, data);
      && Step(p, ch, w, p1, c1, w', {}) && Sends(p1, c1, fp)
      && c1.written == (if res.Sent? && data != [] then ch.written + [data] else ch.written)
  {
    w' := WriteOwns(p, ch, fp, data, w);
    var (p1, c1, res) := Write(p, ch, fp, data);
    WriteShape(p, ch, fp, data);
    hide Write, Owns, Aside;
    if c1 == ch {
      SendsKept(p, ch, p1, c1, fp);
    } else if Few(c1.written) {
      forall i | 0 <= i < SLOTS && c1.out[i].active ensures SlotSends(p1, c1.out[i], fp, c1.written) {
        if i != ch.outTail { SlotKept(p, ch, p1, c1, {}, fp, i); }
      }
    }
  }

  /** A write either changes nothing or takes the slot at the tail. */
  lemma WriteShape(p: Pool, ch: Chan, fp: nat, data: Message)
    requires Shaped(ch) && Admissible(fp)
    ensures var (p1, c1, res) := Write(p, ch, fp, data);
      if res.Sent? && data != [] then
        var o := c1.out[ch.outTail];
        && c1.out == ch.out[ch.outTail := o] && c1.sendSeq == Next16(ch.sendSeq) && c1.written == ch.written + [data]
        && o.num == ch.sendSeq && o.len == |data| && o.fragTotal == Pieces(|data|, fp) && 0 < |data| <= MAX_MSG
      else c1 == ch
  {
    if 0 < |data| <= MAX_MSG { PiecesFit(|data|, fp); }
  }

  lemma ReleaseSends(p: Pool, ch: Chan, fp: nat, i: nat, w: seq<Owner>) returns (w': seq<Owner>)
    requires Owns(p, ch, w) && Tidy(ch) && Sends(p, ch, fp) && i < SLOTS && ch.out[i].active
    ensures var (p1, c1) := Release(p, ch, i); Step(p, ch, w, p1, c1, w', {OutAt(i)}) && Sends(p1, c1, fp)
  {
    var (p1, c1) := Release(p, ch, i);
    w' := ReleaseOwns(p, ch, i, w);
    hide Release, Owns, Aside;
    if Few(ch.written) {
      forall k | 0 <= k < SLOTS && c1.out[k].active ensures SlotSends(p1, c1.out[k], fp, ch.written) {
        SlotKept(p, ch, p1, c1, {OutAt(i)}, fp, k);
      }
    }
  }

  lemma {:induction false} AckFromSends(p: Pool, ch: Chan, fp: nat, a: u16, i: nat, w: seq<Owner>)
      returns (w': seq<Owner>)
    requires Owns(p, ch, w) && Tidy(ch) && Sends(p, ch, fp) && i <= SLOTS
    ensures var (p1, c1) := AckFrom(p, ch, a, i);
            Owns(p1, c1, w') && Tidy(c1) && Aside(p, w, p1, w') && Sends(p1, c1, fp)
    decreases SLOTS - i
  {
    w' := w;
    if i < SLOTS {
      if !Acked(ch.out[i], a) {
        w' := AckFromSends(p, ch, fp, a, i + 1, w);
      } else {
        var (p1, c1) := Release(p, ch, i);
        var w1 := ReleaseSends(p, ch, fp, i, w);
        var c2 := c1.(inFlight := Wrap32(ch.inFlight - ch.out[i].len));
        Relabel(p1, c1, w1, c2);
        assert AckFrom(p, ch, a, i) == AckFrom(p1, c2, a, i + 1);
        SendsKept(p1, c1, p1, c2, fp);
        hide Owns, Tidy, Aside, Sends, Release;
        w' := AckFromSends(p1, c2, fp, a, i + 1, w1);
        var (p3, c3) := AckFrom(p1, c2, a, i + 1);
        AsideChain(p, w, p1, w1, p3, w');
      }
    }
  }

  lemma AckSends(p: Pool, ch: Chan, fp: nat, a: u16, w: seq<Owner>) returns (w': seq<Owner>)
    requires Owns(p, ch, w) && Tidy(ch) && Sends(p, ch, fp)
    ensures var (p1, c1) := Ack(p, ch, a); Owns(p1, c1, w') && Tidy(c1) && Aside(p, w, p1, w') && Sends(p1, c1, fp)
  {
    w' := AckFromSends(p, ch, fp, a, 0, w);
    var (p1, c1) := AckFrom(p, ch, a, 0);
    AdvanceOwns(p1, c1, w');
    SendsKept(p1, c1, p1, c1.(outHead := Advance(c1.out, c1.outHead, c1.outTail)), fp);
  }

  /** Counters of a slot may change. */
  lemma TouchSends(p: Pool, ch: Chan, fp: nat, i: nat, o: Out)
    requires Sends(p, ch, fp) && i < SLOTS
    requires o == ch.out[i].(fragSent := o.fragSent, sentMs := o.sentMs, attempts := o.attempts)
    ensures Sends(p, ch.(out := ch.out[i := o]), fp)
  {
    if Few(ch.written) && o.active { assert SlotSends(p, ch.out[i], fp, ch.written); }
  }

  lemma TransmitSends(p: Pool, ch: Chan, fp: nat, i: nat, now: u32, w: seq<Owner>) returns (w': seq<Owner>)
    requires Owns(p, ch, w) && Tidy(ch) && Sends(p, ch, fp) && i < SLOTS && ch.out[i].active
    ensures var (p1, c1) := Transmit(p, ch, i, now);
            Owns(p1, c1, w') && Tidy(c1) && Aside(p, w, p1, w') && Sends(p1, c1, fp)
  {
    var o := Sending(ch.out[i], now);
    var c1 := ch.(out := ch.out[i := o]);
    TouchOwns(p, ch, i, o, w);
    TouchSends(p, ch, fp, i, o);
    if o.fragSent >= o.fragTotal && ch.kind == UNRELIABLE {
      var (p2, c2) := Release(p, c1, i);
      w' := ReleaseSends(p, c1, fp, i, w);
      AdvanceOwns(p2, c2, w');
      SendsKept(p2, c2, p2, c2.(outHead := Advance(c2.out, c2.outHead, c2.outTail)), fp);
    } else {
      w' := w;
    }
  }

  lemma {:induction false} RetransmitSends(p: Pool, ch: Chan, fp: nat, rt: nat, now: u32, j: nat)
    requires Sends(p, ch, fp) && j <= SLOTS
    ensures Sends(p, Retransmit(ch, rt, now, j), fp)
    decreases SLOTS - j
  {
    if j < SLOTS {
      var o := ch.out[j];
      if !o.active || o.sentMs == 0 || Wrap32(now - o.sentMs) < Timeout(rt, o.attempts) {
        RetransmitSends(p, ch, fp, rt, now, j + 1);
      } else if o.attempts < MAX_RT_ATTEMPTS {
        var o1 := o.(fragSent := 0, sentMs := now, attempts := o.attempts + 1);
        TouchSends(p, ch, fp, j, o1);
        hide Sends;
        RetransmitSends(p, ch.(out := ch.out[j := o1]), fp, rt, now, j + 1);
      }
    }
  }

  /** Whatever slot the send loop picks, first time or again, the frame is a true fragment. */
  lemma PieceGenuine(p: Pool, ch: Chan, fp: nat, j: nat)
    requires Sends(p, ch, fp) && Few(ch.written) && Admissible(fp) && PoolShaped(p)
    requires j < SLOTS && ch.out[j].active && ch.out[j].fragSent < ch.out[j].fragTotal
    ensures var o := ch.out[j]; Genuine(o.num, o.fragSent, o.fragTotal, PieceOf(p, o, fp), fp, ch.written)
    ensures ch.out[j].fragTotal <= MAX_FRAGS
  {
    var o := ch.out[j];
    assert SlotSends(p, o, fp, ch.written);
    var m := ch.written[o.num];
    PiecesFit(o.len, fp);
    PieceShape(o.len, o.fragSent, fp);
    var at := Offset(o.fragSent, fp);
    var n := PieceLen(o, fp);
    assert at + n == End(o.len, o.fragSent, fp);
    hide Offset, Pieces;
    PartOf(Buffer(p, o.buf), m, at, n);
  }

  lemma PartOf(s: seq<u8>, m: Message, at: nat, n: nat)
    requires Part(s, 0, |m|) == m && m != [] && at + n <= |m|
    ensures Part(s, at, n) == m[at..at + n]
  {
    assert s[0..|m|][at..at + n] == s[at..at + n];
  }

  /** Reading gives the oldest message not yet read, cut to the room. */
  lemma ReadGood(p: Pool, ch: Chan, fp: nat, room: nat, sent: seq<Message>, w: seq<Owner>) returns (w': seq<Owner>)
    requires Owns(p, ch, w) && Tidy(ch) && Good(p, ch, fp, sent) && Settled(ch) && !ch.sender
    ensures var (p1, c1, m) := Read(p, ch, room);
      && Step(p, ch, w, p1, c1, w', {QueueAt(ch.rqHead)}) && Good(p1, c1, fp, sent) && Settled(c1)
      && (ch.taken == |ch.arrived| ==> m == [] && c1 == ch)
      && (ch.taken < |ch.arrived| ==>
            var t := ch.arrived[ch.taken]; c1.taken == ch.taken + 1 && m == t[..if |t| < room then |t| else room])
  {
    w' := ReadOwns(p, ch, room, w);
    var (p1, c1, m) := Read(p, ch, room);
    if c1 == ch {
      GoodKept(p, ch, p1, c1, fp, sent);
    } else {
      RingShrinks(ch.rqHead, ch.rqTail, ch.rqHead);
      var e := ch.rq[ch.rqHead];
      var t := ch.arrived[ch.taken];
      assert Content(p, e.buf, e.len) == t;
      assert e.len == |t| by { assert At(ch, QueueAt(ch.rqHead)) == e.buf != NOBUF; }
      HeldKept(p, ch, p1, c1, {QueueAt(ch.rqHead)}, sent);
      FragsKept(p, ch, p1, c1, {QueueAt(ch.rqHead)}, fp, sent);
      QueueShrinks(p, ch, p1, c1);
    }
  }

  lemma QueueShrinks(p: Pool, ch: Chan, p1: Pool, c1: Chan)
    requires Tidy(ch) && Shaped(c1) && QueueHolds(p, ch) && ch.rqHead != ch.rqTail
    requires Undisturbed(p, ch, p1, c1, {QueueAt(ch.rqHead)})
    requires c1.rqHead == NextSlot(ch.rqHead) && c1.rqTail == ch.rqTail && c1.taken == ch.taken + 1
             && c1.arrived == ch.arrived
    requires c1.rq == ch.rq[ch.rqHead := NO_ENTRY]
    ensures QueueHolds(p1, c1)
  {
    forall i | 0 <= i < SLOTS && InRing(i, c1.rqHead, c1.rqTail)
      ensures Content(p1, c1.rq[i].buf, c1.rq[i].len) == c1.arrived[c1.taken + Distance(c1.rqHead, i)]
    {
      RingShrinks(ch.rqHead, ch.rqTail, i);
      assert At(ch, QueueAt(i)) == ch.rq[i].buf != NOBUF;
    }
  }
}
