/** Unreliable messages of netchan-ipx: the newest four wait to be sent, and all that are sent
    over a network that loses nothing arrive in order, as far as the queue has room. */
module IpxUnreliable {
  import opened Bytes
  import opened IpxWire
  import opened IpxEndpoint
  import opened IpxSystem
  import opened IpxRecovery

  // ----- writing -----

  function WriteAll(e: Endpoint, ch: int, ms: seq<seq<u8>>): (r: Endpoint)
    requires Shape(e)
    ensures Shape(r)
  {
    if ms == [] then e else IpxEndpoint.Write(WriteAll(e, ch, ms[..|ms| - 1]), ch, ms[|ms| - 1]).0
  }

  function On(ch: u8, ms: seq<seq<u8>>): (r: seq<Msg>)
    ensures |r| == |ms| && forall i :: 0 <= i < |ms| ==> r[i] == Msg(ch, ms[i])
  {
    seq(|ms|, i requires 0 <= i < |ms| => Msg(ch, ms[i]))
  }

  /** The last four. */
  function Newest(ms: seq<Msg>): seq<Msg> { if |ms| <= 4 then ms else ms[|ms| - 4..] }

  predicate OpenUnreliable(e: Endpoint, ch: int)
    requires Shape(e)
  {
    IsChan(e, ch) && e.chans[ch].typ == Unreliable
  }

  /** However many messages are written, the newest four wait, in the order written. */
  lemma {:induction false} WritesKeepNewest(e: Endpoint, ch: u8, ms: seq<seq<u8>>)
    requires Shape(e) && e.state == Connected && OpenUnreliable(e, ch)
    requires forall i :: 0 <= i < |ms| ==> Short(ms[i])
    ensures WriteAll(e, ch, ms) == e.(txu := Newest(e.txu + On(ch, ms)))
  {
    if ms == [] {
      assert e.txu + On(ch, ms) == e.txu;
    } else {
      var init, m := ms[..|ms| - 1], ms[|ms| - 1];
      WritesKeepNewest(e, ch, init);
      var all := e.txu + On(ch, init);
      assert e.txu + On(ch, ms) == all + [Msg(ch, m)];
      assert Short(m);
      OneWritten(e.(txu := Newest(all)), ch, m);
      NewestOnce(all, Msg(ch, m));
    }
  }

  lemma OneWritten(e: Endpoint, ch: u8, m: seq<u8>)
    requires Shape(e) && e.state == Connected && OpenUnreliable(e, ch) && Short(m)
    ensures IpxEndpoint.Write(e, ch, m) == (e.(txu := Newest(e.txu + [Msg(ch, m)])), |m|)
  {
    if |e.txu| == 4 { assert (e.txu + [Msg(ch, m)])[1..] == e.txu[1..] + [Msg(ch, m)]; }
    hide SameLayout;
  }

  lemma NewestOnce(ms: seq<Msg>, m: Msg)
    ensures Newest(Newest(ms) + [m]) == Newest(ms + [m])
  {}

  // ----- arriving -----

  /** What a receive queue holds of all that came. */
  function Queued(ms: seq<seq<u8>>): seq<seq<u8>> { if |ms| <= 8 then ms else ms[..8] }

  lemma QueuedOnce(q: seq<seq<u8>>, xs: seq<seq<u8>>, ys: seq<seq<u8>>)
    ensures Queued(Queued(q + xs) + ys) == Queued(q + (xs + ys))
  {
    assert q + (xs + ys) == q + xs + ys;
  }

  lemma {:induction false} ProjectConcat(xs: seq<Msg>, ys: seq<Msg>, c: int)
    ensures Project(xs + ys, c) == Project(xs, c) + Project(ys, c)
  {
    if ys == [] {
      assert xs + ys == xs;
    } else {
      assert (xs + ys)[..|xs + ys| - 1] == xs + ys[..|ys| - 1];
      ProjectConcat(xs, ys[..|ys| - 1], c);
    }
  }

  lemma {:induction false} DeliverConcat(e: Endpoint, xs: seq<Record>, ys: seq<Record>)
    requires Shape(e)
    ensures DeliverAll(e, xs + ys) == DeliverAll(DeliverAll(e, xs), ys)
    decreases |xs|
  {
    hide Shape, SameLayout, IpxEndpoint.Deliver;
    if xs == [] {
      assert xs + ys == ys;
    } else {
      assert (xs + ys)[1..] == xs[1..] + ys;
      DeliverConcat(IpxEndpoint.Deliver(e, xs[0]), xs[1..], ys);
    }
  }

  /** Records of other channels leave a channel alone. */
  lemma {:induction false} OthersPass(e: Endpoint, rs: seq<Record>, c: int)
    requires Shape(e) && 0 <= c < NC_MAX_CHAN && forall i :: 0 <= i < |rs| ==> rs[i].chan != c
    ensures DeliverAll(e, rs).chans[c] == e.chans[c]
    decreases |rs|
  {
    if rs != [] {
      var e1 := IpxEndpoint.Deliver(e, rs[0]);
      assert e1.chans[c] == e.chans[c];
      hide IpxEndpoint.Deliver, SameLayout;
      OthersPass(e1, rs[1..], c);
    }
  }

  lemma {:induction false} UnrelsQueue(e: Endpoint, ms: seq<Msg>, c: int)
    requires Shape(e) && OpenUnreliable(e, c) && forall i :: 0 <= i < |ms| ==> Short(ms[i].data)
    ensures DeliverAll(e, UnrelRecords(ms)).chans[c].queue == Queued(e.chans[c].queue + Project(ms, c))
    decreases |ms|
  {
    if ms == [] {
      assert e.chans[c].queue + Project(ms, c) == e.chans[c].queue;
    } else {
      var m, rest := ms[0], ms[1..];
      var e1 := IpxEndpoint.Deliver(e, UnrelRecord(m));
      OneQueued(e, m, c);
      assert UnrelRecords(ms)[1..] == UnrelRecords(rest);
      assert ms == [m] + rest;
      ProjectConcat([m], rest, c);
      QueuedOnce(e.chans[c].queue, Project([m], c), Project(rest, c));
      hide IpxEndpoint.Deliver, SameLayout, Queued, Project;
      UnrelsQueue(e1, rest, c);
    }
  }

  lemma OneQueued(e: Endpoint, m: Msg, c: int)
    requires Shape(e) && OpenUnreliable(e, c) && Short(m.data)
    ensures var e1 := IpxEndpoint.Deliver(e, UnrelRecord(m));
      OpenUnreliable(e1, c) && e1.chans[c].queue == Queued(e.chans[c].queue + Project([m], c))
  {
    assert [m][..0] == [];
    assert Project([m], c) == if m.chan == c then [m.data] else [];
    assert ChanOk(e.chans[c]);
  }

  lemma {:induction false} RelRecordChans(sent: seq<Msg>, lo: nat, hi: nat, c: int)
    requires lo <= hi <= |sent| && forall q :: 0 <= q < |sent| ==> sent[q].chan != c
    ensures forall i :: 0 <= i < hi - lo ==> RelRecords(sent, lo, hi)[i].chan != c
    decreases hi - lo
  {
    if lo < hi { RelRecordChans(sent, lo + 1, hi, c); }
  }

  /** One DATA packet brings its unreliable messages. */
  lemma DataBrings(tx: Half, rx: Half, c: int)
    requires Up(tx, rx) && !HasControl(tx.ep) && HasData(tx.ep) && OpenUnreliable(rx.ep, c)
    ensures var tx1 := Step(tx, Send(NC_MTU));
            var rx1 := Step(rx, Op.Deliver(Emitted(tx, NC_MTU)));
            var n := UnrelToSend(tx.ep, NC_MTU);
      && tx1.ep.txu == tx.ep.txu[n..] && OpenUnreliable(rx1.ep, c)
      && rx1.ep.chans[c].queue == Queued(rx.ep.chans[c].queue + Project(tx.ep.txu[..n], c))
  {
    hide Link, Ids, EncodeRecords, PackRel, PackUnrel, DataPacket, ParseRecords, ProcessAck, DeliverAll, Project,
         Queued, Feed, SameLayout;
    var n := UnrelToSend(tx.ep, NC_MTU);
    var d := Emitted(tx, NC_MTU);
    PacketHolds(tx, rx, c);
    FedConnected(rx, d);
    var e := ProcessAck(rx.ep.(lastRecv := rx.ep.now), PacketAck(d.bytes));
    Brings(e, RelToSend(tx.ep, NC_MTU), tx.ep.txu[..n], c);
  }

  /** The packet holds reliable messages, none of them of channel `c`, and then the unreliable
      ones. */
  lemma PacketHolds(tx: Half, rx: Half, c: int)
    requires Up(tx, rx) && !HasControl(tx.ep) && HasData(tx.ep) && OpenUnreliable(rx.ep, c)
    ensures var d := Emitted(tx, NC_MTU);
            var rel, ms := RelToSend(tx.ep, NC_MTU), tx.ep.txu[..UnrelToSend(tx.ep, NC_MTU)];
      && IsData(d.bytes) && PacketId(d.bytes) == rx.ep.localId
      && ParseRecords(d.bytes[NC_HDR..]) == rel + UnrelRecords(ms)
      && forall i :: 0 <= i < |rel| ==> rel[i].chan != c
  {
    hide HalfOk, ExactPrefix, Identified, EncodeRecords, PackRel, PackUnrel, DataPacket, ParseRecords, RelRecords,
         WindowRefines, SameLayout;
    var d, rel := Emitted(tx, NC_MTU), RelToSend(tx.ep, NC_MTU);
    var ms := tx.ep.txu[..UnrelToSend(tx.ep, NC_MTU)];
    EmittedData(tx, rx);
    SendDataKeeps(tx, rx, NC_MTU);
    DataPacketRoundTrip(tx.ep.remoteId, tx.ep.rxNext, rel + UnrelRecords(ms));
    assert d.hi - d.lo == |rel|;
    assert rel == (rel + UnrelRecords(ms))[..d.hi - d.lo];
    NoneSentOn(tx, rx, c);
    RelRecordChans(tx.sent, d.lo, d.hi, c);
  }

  lemma NoneSentOn(tx: Half, rx: Half, c: int)
    requires Link(tx, rx) && OpenUnreliable(rx.ep, c)
    ensures forall q :: 0 <= q < |tx.sent| ==> tx.sent[q].chan != c
  {
    hide ExactPrefix, WindowRefines;
    forall q | 0 <= q < |tx.sent| ensures tx.sent[q].chan != c { SentIsReliable(tx, rx, q); }
  }

  lemma Brings(e: Endpoint, rel: seq<Record>, ms: seq<Msg>, c: int)
    requires Shape(e) && OpenUnreliable(e, c) && forall i :: 0 <= i < |ms| ==> Short(ms[i].data)
    requires forall i :: 0 <= i < |rel| ==> rel[i].chan != c
    ensures var e1 := DeliverAll(e, rel + UnrelRecords(ms));
      OpenUnreliable(e1, c) && e1.chans[c].queue == Queued(e.chans[c].queue + Project(ms, c))
  {
    hide DeliverAll, Project, Queued;
    DeliverConcat(e, rel, UnrelRecords(ms));
    OthersPass(e, rel, c);
    var e1 := DeliverAll(e, rel);
    UnrelsQueue(e1, ms, c);
  }

  /** Draining a connected end into the other: every waiting unreliable message arrives on its
      channel, in order and whole, as long as the queue of eight has room. */
  lemma {:induction false} UnreliableArrives(tx: Half, rx: Half, c: int)
    requires Up(tx, rx) && OpenUnreliable(rx.ep, c)
    ensures var (tx1, rx1) := Drain(tx, rx);
      && tx1.ep.txu == [] && 0 <= c < NC_MAX_CHAN
      && rx1.ep.chans[c].queue == Queued(rx.ep.chans[c].queue + Project(tx.ep.txu, c))
    decreases Backlog(tx.ep)
  {
    hide Link, Ids, Step, SendNext, Project, Queued, Backlog;
    if SendNext(tx.ep, NC_MTU).1 == [] {
      NothingWaits(tx, rx, c);
    } else {
      SendShrinks(tx.ep);
      ExchangeKeeps(tx, rx);
      StepOfSend(tx);
      var tx1, rx1 := Step(tx, Send(NC_MTU)), Step(rx, Op.Deliver(Emitted(tx, NC_MTU)));
      if HasControl(tx.ep) {
        ControlTaken(tx, rx);
        ControlLeaves(tx.ep);
        UnreliableArrives(tx1, rx1, c);
      } else {
        DataBrings(tx, rx, c);
        UnreliableArrives(tx1, rx1, c);
        var n := UnrelToSend(tx.ep, NC_MTU);
        assert tx.ep.txu == tx.ep.txu[..n] + tx.ep.txu[n..];
        ProjectConcat(tx.ep.txu[..n], tx.ep.txu[n..], c);
        QueuedOnce(rx.ep.chans[c].queue, Project(tx.ep.txu[..n], c), Project(tx.ep.txu[n..], c));
      }
    }
  }

  lemma NothingWaits(tx: Half, rx: Half, c: int)
    requires Up(tx, rx) && SendNext(tx.ep, NC_MTU).1 == [] && OpenUnreliable(rx.ep, c)
    ensures tx.ep.txu == [] && rx.ep.chans[c].queue == Queued(rx.ep.chans[c].queue + Project(tx.ep.txu, c))
  {
    assert rx.ep.chans[c].queue + Project([], c) == rx.ep.chans[c].queue;
    assert ChanOk(rx.ep.chans[c]);
    hide Link, Ids, Project;
  }

  lemma ControlLeaves(e: Endpoint)
    requires Shape(e) && HasControl(e)
    ensures SendNext(e, NC_MTU).0.txu == e.txu
  {
    hide SameLayout;
  }

  /** The same from every reachable state in which both ends are connected. */
  lemma ArrivesFromAnyRun(clientId: u32, serverId: u32, layout: seq<(bool, ChanType)>, run: seq<Action>,
                          fromServer: bool, c: int)
    requires |layout| == NC_MAX_CHAN && CanRun(Initial(clientId, serverId, layout), run)
    requires 0 <= c < NC_MAX_CHAN && layout[c] == (true, Unreliable)
    requires var r := Run(Initial(clientId, serverId, layout), run);
      r.client.ep.state == Connected && r.server.ep.state == Connected
    ensures var r := Run(Initial(clientId, serverId, layout), run);
            var tx := if fromServer then r.server else r.client;
            var rx := if fromServer then r.client else r.server;
            var (tx1, rx1) := Drain(tx, rx);
      tx1.ep.txu == [] && rx1.ep.chans[c].queue == Queued(rx.ep.chans[c].queue + Project(tx.ep.txu, c))
  {
    hide Run, CanRun, Drain, HalfOk, ExactPrefix, WindowRefines, Identified, Project, Queued;
    var s := Initial(clientId, serverId, layout);
    InitialLink(clientId, serverId, layout);
    assert Ids(s.client, s.server) by { FirstIds(clientId, serverId, layout); }
    RunKeeps(s, run);
    RunIds(s, run);
    LayoutKept(s, run);
    var r := Run(s, run);
    LinkSymmetric(r.client, r.server);
    UnreliableArrives(if fromServer then r.server else r.client, if fromServer then r.client else r.server, c);
  }

  lemma FirstIds(clientId: u32, serverId: u32, layout: seq<(bool, ChanType)>)
    requires |layout| == NC_MAX_CHAN
    ensures var s := Initial(clientId, serverId, layout); Ids(s.client, s.server)
  {}
}
