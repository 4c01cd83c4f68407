/** A run of netchan-ipx in which an old acknowledgement loses a message: the server's first
    packet stays on the network while 2^15 + 1 messages are written, sent and acknowledged. */
module IpxStale {
  import opened Bytes
  import opened IpxWire
  import opened IpxEndpoint
  import opened IpxSystem
  import opened IpxRecovery
  import opened IpxHandshake

  // ----- runs, one action at a time -----

  predicate Reaches(s0: Sys, run: seq<Action>, s: Sys) { SysWf(s0) && CanRun(s0, run) && s == Run(s0, run) }

  lemma ReachNext(s0: Sys, run: seq<Action>, s: Sys, a: Action)
    requires Reaches(s0, run, s) && CanAct(s, a)
    ensures SysWf(s) && Reaches(s0, run + [a], Act(s, a))
  {
    assert (run + [a])[..|run + [a]| - 1] == run;
    hide Act, CanAct, SysWf;
  }

  function At(s: Sys, atServer: bool): Half { if atServer then s.server else s.client }

  lemma Acts(s0: Sys, run: seq<Action>, s: Sys, atServer: bool, op: Op) returns (run': seq<Action>, s': Sys)
    requires Reaches(s0, run, s) && Enabled(At(s, atServer), At(s, !atServer), op)
    ensures Reaches(s0, run', s') && SysWf(s)
    ensures At(s', atServer) == Step(At(s, atServer), op) && At(s', !atServer) == At(s, !atServer)
  {
    hide Reaches, Step, Enabled;
    var a := Action(atServer, op);
    ReachNext(s0, run, s, a);
    run', s' := run + [a], Act(s, a);
  }

  /** Draining one side into the other is a run of sends and deliveries. */
  lemma {:induction false} DrainRuns(s0: Sys, run: seq<Action>, s: Sys, atServer: bool)
    returns (run': seq<Action>, s': Sys)
    requires Reaches(s0, run, s) && Up(At(s, atServer), At(s, !atServer))
    ensures Reaches(s0, run', s')
    ensures (At(s', atServer), At(s', !atServer)) == Drain(At(s, atServer), At(s, !atServer))
    ensures Kept(At(s, atServer), At(s', atServer)) && Kept(At(s, !atServer), At(s', !atServer))
    decreases Backlog(At(s, atServer).ep)
  {
    hide Reaches, Step, Up, SendNext, Backlog, Kept, Enabled;
    var tx, rx := At(s, atServer), At(s, !atServer);
    UpIs(tx, rx);
    KeptSelf(tx);
    KeptSelf(rx);
    if SendNext(tx.ep, NC_MTU).1 == [] {
      run', s' := run, s;
    } else {
      var d := Emitted(tx, NC_MTU);
      ExchangeKeeps(tx, rx);
      SendShrinks(tx.ep);
      StepOfSend(tx);
      MayCall(tx, rx, Send(NC_MTU));
      var run1, s1 := Acts(s0, run, s, atServer, Send(NC_MTU));
      MayDeliver(rx, At(s1, atServer), d);
      var run2, s2 := Acts(s0, run1, s1, !atServer, Op.Deliver(d));
      run', s' := DrainRuns(s0, run2, s2, atServer);
      StepKept(tx, Send(NC_MTU));
      StepKept(rx, Op.Deliver(d));
      KeptOn(tx, At(s2, atServer), At(s', atServer));
      KeptOn(rx, At(s2, !atServer), At(s', !atServer));
    }
  }

  /** Sending and receiving writes nothing and reads nothing, and nothing on the network goes. */
  predicate Kept(h: Half, h': Half) {
    h'.sent == h.sent && h'.got == h.got && h.net <= h'.net && h'.ep.localId == h.ep.localId
  }

  lemma KeptSelf(h: Half)
    ensures Kept(h, h)
  {}

  lemma KeptOn(a: Half, b: Half, c: Half)
    requires Kept(a, b) && Kept(b, c)
    ensures Kept(a, c)
  {}

  lemma StepKept(h: Half, op: Op)
    requires Wf(h) && (op.Send? || op.Deliver?)
    ensures Kept(h, Step(h, op))
  {
    hide Feed, SendNext, SameLayout;
    if op.Send? { SendLocal(h.ep, op.buflen); } else { FeedLocal(h.ep, op.d.bytes); }
  }

  // ----- one message after the other -----

  const LAYOUT := [(true, Reliable), (false, Unreliable)]

  /** The packet that stays behind. */
  predicate Delayed(s: Sys, d: Datagram) {
    d in s.server.net && IsData(d.bytes) && PacketId(d.bytes) == s.client.ep.localId && d.ack == 0
  }

  predicate OnlyZero(ms: seq<Msg>) { forall i :: 0 <= i < |ms| ==> ms[i].chan == 0 }

  /** Only channel 0 is open, and it is reliable. */
  predicate Laid(s: Sys)
    requires SysWf(s)
  {
    IsReliable(s.client.ep, 0) && IsReliable(s.server.ep, 0) && !s.server.ep.chans[1].used
  }

  lemma LaidStill(s0: Sys, run: seq<Action>, s: Sys)
    requires Reaches(s0, run, s) && Laid(s0)
    ensures SysWf(s) && Laid(s)
  {
    LayoutKept(s0, run);
    hide Run, CanRun;
  }

  /** `n` messages were written at the client, received, read and acknowledged. */
  predicate Rounds(s: Sys, n: nat, d: Datagram) {
    && Up(s.client, s.server) && Laid(s)
    && OnlyZero(s.client.sent) && |s.client.sent| == n && Base(s.client) == n && s.server.rx == n
    && |s.server.got[0]| == n && Delayed(s, d)
  }

  lemma {:induction false} ProjectAll(ms: seq<Msg>)
    requires OnlyZero(ms)
    ensures |Project(ms, 0)| == |ms|
  {
    if ms != [] { ProjectAll(ms[..|ms| - 1]); }
  }

  /** What the server has queued and not read. */
  lemma QueueIs(s: Sys)
    requires Link(s.client, s.server) && IsReliable(s.server.ep, 0)
    requires OnlyZero(s.client.sent) && s.server.rx <= |s.client.sent|
    ensures |s.server.got[0]| + |s.server.ep.chans[0].queue| == s.server.rx
  {
    hide HalfOk, WindowRefines, SameLayout;
    ProjectAll(s.client.sent[..s.server.rx]);
    hide Project;
  }

  lemma WriteCounts(me: Half, peer: Half)
    requires Up(me, peer) && IsReliable(me.ep, 0) && Base(me) == |me.sent|
    ensures var me' := Step(me, Write(0, []));
      && Up(me', peer) && me'.sent == me.sent + [Msg(0, [])] && Base(me') == Unsent(me') == |me.sent|
      && Unacked(me') == 1 && Kept(me, me'.(sent := me.sent))
  {
    WriteKeeps(me, peer, 0, []);
    StepIds(me, peer, Write(0, []));
    hide HalfOk, ExactPrefix, Identified, SameLayout;
  }

  lemma ReadCounts(me: Half, peer: Half)
    requires Up(me, peer) && IsReliable(me.ep, 0) && |me.ep.chans[0].queue| > 0
    ensures var me' := Step(me, Op.Read(0, NC_MAXMSG));
      && Up(me', peer) && me'.sent == me.sent && me'.rx == me.rx && me'.net == me.net
      && |me'.got[0]| == |me.got[0]| + 1
  {
    ReadKeeps(me, peer, 0, NC_MAXMSG);
    StepIds(me, peer, Op.Read(0, NC_MAXMSG));
    hide HalfOk, ExactPrefix, Identified, SameLayout;
  }

  lemma HasRoom(s: Sys)
    requires SysWf(s) && Link(s.client, s.server) && Laid(s) && OnlyZero(s.client.sent)
    requires s.server.rx <= |s.client.sent| && |s.server.got[0]| == s.server.rx
    ensures RoomFor(s.server, NC_WINDOW)
  {
    QueueIs(s);
    hide Link;
  }

  /** The message just written arrives and is acknowledged. */
  lemma Exchanged(s0: Sys, run: seq<Action>, s: Sys, n: nat) returns (run': seq<Action>, s': Sys)
    requires Reaches(s0, run, s) && Up(s.client, s.server) && RoomFor(s.server, NC_WINDOW)
    requires |s.client.sent| == n + 1 && Base(s.client) == Unsent(s.client) == n && s.server.rx == n
    ensures Reaches(s0, run', s') && Up(s'.client, s'.server) && Base(s'.client) == n + 1 && s'.server.rx == n + 1
    ensures Kept(s.client, s'.client) && Kept(s.server, s'.server)
  {
    hide Reaches, Up, Drain, Kept, Link, Base, Unsent, RoomFor;
    UpIs(s.client, s.server);
    RoomForLess(s.server, NC_WINDOW, 1);
    DrainDelivers(s.client, s.server);
    var run1, s1 := DrainRuns(s0, run, s, false);
    UpSymmetric(s1.client, s1.server);
    DrainAcks(s1.server, s1.client);
    run', s' := DrainRuns(s0, run1, s1, true);
    UpSymmetric(s'.server, s'.client);
    KeptOn(s.client, s1.client, s'.client);
    KeptOn(s.server, s1.server, s'.server);
    UpIs(s'.client, s'.server);
    WindowIs(s'.client, s'.server);
    SameSent(s.client, s1.client);
    SameSent(s1.client, s'.client);
  }

  lemma SameSent(h: Half, h': Half)
    requires Kept(h, h')
    ensures h'.sent == h.sent
  {}

  /** Write one more message, deliver it, acknowledge it, read it. */
  lemma OneRound(s0: Sys, run: seq<Action>, s: Sys, n: nat, d: Datagram) returns (run': seq<Action>, s': Sys)
    requires SysWf(s0) && Laid(s0) && Reaches(s0, run, s) && Rounds(s, n, d)
    ensures Reaches(s0, run', s') && Rounds(s', n + 1, d)
  {
    hide Reaches, Up, Step, Enabled, Link, Project, Base, Unsent, RoomFor, Received;
    UpIs(s.client, s.server);
    HasRoom(s);
    MayCall(s.client, s.server, Write(0, []));
    WriteCounts(s.client, s.server);
    var run1, s1 := Acts(s0, run, s, false, Write(0, []));
    var run2, s2 := Exchanged(s0, run1, s1, n);
    LaidStill(s0, run2, s2);
    UpIs(s2.client, s2.server);
    QueueIs(s2);
    UpSymmetric(s2.client, s2.server);
    ReadCounts(s2.server, s2.client);
    MayCall(s2.server, s2.client, Op.Read(0, NC_MAXMSG));
    run', s' := Acts(s0, run2, s2, true, Op.Read(0, NC_MAXMSG));
    UpSymmetric(s'.server, s'.client);
    LaidStill(s0, run', s');
  }

  lemma {:induction false} ManyRounds(s0: Sys, run: seq<Action>, s: Sys, n: nat, d: Datagram)
    returns (run': seq<Action>, s': Sys)
    requires SysWf(s0) && Laid(s0) && Reaches(s0, run, s) && Rounds(s, 0, d)
    ensures Reaches(s0, run', s') && Rounds(s', n, d)
  {
    hide Reaches, Rounds, Laid;
    if n == 0 {
      run', s' := run, s;
    } else {
      var run1, s1 := ManyRounds(s0, run, s, n - 1, d);
      run', s' := OneRound(s0, run1, s1, n - 1, d);
    }
  }

  // ----- the handshake -----

  /** Nothing was ever sent, received or read at this end. */
  predicate Untouched(h: Half) {
    && Wf(h) && h.sent == [] && h.rx == 0 && h.got == [[], []] && h.ep.txu == []
    && h.ep.txBase == h.ep.txNext == h.ep.txUnsent == h.ep.rxNext == 0
  }

  /** One packet of the handshake goes over. */
  lemma Passes(s0: Sys, run: seq<Action>, s: Sys, atServer: bool) returns (run': seq<Action>, s': Sys)
    requires Reaches(s0, run, s) && Untouched(At(s, atServer)) && Untouched(At(s, !atServer))
    requires SendNext(At(s, atServer).ep, NC_MTU).1 != []
    requires SendNext(At(s, atServer).ep, NC_MTU).0.txUnsent == 0
    requires Feed(At(s, !atServer).ep, SendNext(At(s, atServer).ep, NC_MTU).1).0.rxNext == 0
    ensures Reaches(s0, run', s')
    ensures var tx, rx := At(s, atServer), At(s, !atServer);
            var (e, p) := SendNext(tx.ep, NC_MTU);
      && At(s', atServer) == tx.(ep := e, net := At(s', atServer).net)
      && At(s', !atServer) == rx.(ep := Feed(rx.ep, p).0)
  {
    hide Reaches, SendNext, Feed, Enabled;
    var tx, rx, d := At(s, atServer), At(s, !atServer), Emitted(At(s, atServer), NC_MTU);
    MayCall(tx, rx, Send(NC_MTU));
    var run1, s1 := Acts(s0, run, s, atServer, Send(NC_MTU));
    MayDeliver(rx, At(s1, atServer), d);
    run', s' := Acts(s0, run1, s1, !atServer, Op.Deliver(d));
  }

  /** SYN, SYNACK, ACK. */
  lemma Handshake(clientId: u32, serverId: u32) returns (run: seq<Action>, s: Sys)
    ensures Reaches(Initial(clientId, serverId, LAYOUT), run, s)
    ensures Untouched(s.client) && Untouched(s.server) && s.client.ep.state == s.server.ep.state == Connected
    ensures !HasControl(s.client.ep) && !HasControl(s.server.ep)
    ensures s.client.ep.localId == clientId && s.server.ep.remoteId == clientId
  {
    var s0 := Initial(clientId, serverId, LAYOUT);
    assert Reaches(s0, [], s0);
    hide Reaches, SendNext, Feed, Enabled;
    assert Enabled(s0.client, s0.server, Connect) by { MayConnect(s0.client, s0.server); }
    run, s := Acts(s0, [], s0, false, Connect);
    SynHeard(s.client.ep, s.server.ep);
    run, s := Passes(s0, run, s, false);
    SynackHeard(s.server.ep, s.client.ep);
    run, s := Passes(s0, run, s, true);
    AckHeard(s.client.ep, s.server.ep);
    run, s := Passes(s0, run, s, false);
  }

  lemma MayConnect(me: Half, peer: Half)
    requires !me.ep.isServer
    ensures Enabled(me, peer, Connect)
  {}

  /** Both ends are up and have exchanged no data. */
  predicate Begun(s: Sys) {
    && Up(s.client, s.server) && Laid(s) && Untouched(s.client) && Untouched(s.server)
    && !HasControl(s.client.ep) && !HasControl(s.server.ep)
  }

  lemma Begins(clientId: u32, serverId: u32) returns (run: seq<Action>, s: Sys)
    ensures Reaches(Initial(clientId, serverId, LAYOUT), run, s) && Begun(s)
    ensures Laid(Initial(clientId, serverId, LAYOUT))
  {
    var s0 := Initial(clientId, serverId, LAYOUT);
    assert Laid(s0);
    hide Initial, Up, Reaches;
    run, s := Handshake(clientId, serverId);
    UpFrom(clientId, serverId, run, s);
    LaidStill(s0, run, s);
  }

  /** The server's first message goes out in a packet that will be late. */
  lemma FirstPacket(s0: Sys, run0: seq<Action>, s1: Sys) returns (run: seq<Action>, s: Sys, d: Datagram)
    requires SysWf(s0) && Laid(s0) && Reaches(s0, run0, s1) && Begun(s1)
    ensures Reaches(s0, run, s) && Rounds(s, 0, d)
  {
    hide Reaches, Up, Enabled, Laid, Step, Link, Base, Unsent;
    UpIs(s1.client, s1.server);
    UpSymmetric(s1.client, s1.server);
    assert IsReliable(s1.server.ep, 0) && IsReliable(s1.client.ep, 0) by { LaidIs(s1); }
    assert Base(s1.server) == 0 && Base(s1.client) == 0 by { UntouchedBase(s1.server); UntouchedBase(s1.client); }
    WriteCounts(s1.server, s1.client);
    MayCall(s1.server, s1.client, Write(0, []));
    var run2, s2 := Acts(s0, run0, s1, true, Write(0, []));
    WrittenFirst(s1.server);
    EmittedData(s2.server, s2.client);
    d := Emitted(s2.server, NC_MTU);
    SendKept(s2.server, s2.client);
    MayCall(s2.server, s2.client, Send(NC_MTU));
    run, s := Acts(s0, run2, s2, true, Send(NC_MTU));
    UpSymmetric(s.server, s.client);
    LaidStill(s0, run, s);
  }

  lemma LaidIs(s: Sys)
    requires SysWf(s) && Laid(s)
    ensures IsReliable(s.server.ep, 0) && IsReliable(s.client.ep, 0)
  {}

  lemma UntouchedBase(h: Half)
    requires Untouched(h)
    ensures Base(h) == 0
  {}

  lemma UpFrom(clientId: u32, serverId: u32, run: seq<Action>, s: Sys)
    requires Reaches(Initial(clientId, serverId, LAYOUT), run, s)
    requires s.client.ep.state == s.server.ep.state == Connected
    ensures Up(s.client, s.server)
  {
    var s0 := Initial(clientId, serverId, LAYOUT);
    InitialLink(clientId, serverId, LAYOUT);
    hide Link;
    RunKeeps(s0, run);
    RunIds(s0, run);
    hide Run, CanRun, Ids;
  }

  lemma WrittenFirst(h: Half)
    requires Untouched(h) && h.ep.state == Connected && IsReliable(h.ep, 0) && !HasControl(h.ep)
    ensures var h' := Step(h, Write(0, [])); HasData(h'.ep) && !HasControl(h'.ep) && h'.rx == 0 && h'.got == h.got
  {}

  lemma SendKept(tx: Half, rx: Half)
    requires Up(tx, rx) && !HasControl(tx.ep) && HasData(tx.ep)
    ensures var tx' := Step(tx, Send(NC_MTU));
      Up(tx', rx) && Emitted(tx, NC_MTU) in tx'.net && tx'.rx == tx.rx && tx'.got == tx.got
  {
    SendKeeps(tx, rx, NC_MTU);
    SendIds(tx, rx, NC_MTU);
    hide Link, Ids, SendData, SameLayout;
  }

  // ----- and so the message is lost -----

  /** A run from the start, allowed in every step, after which one message is under way that
      the server does not have, and the arrival of a packet the server did send makes the
      client take it for acknowledged. */
  lemma MessageLost(clientId: u32, serverId: u32) returns (run: seq<Action>, s: Sys, d: Datagram)
    ensures Reaches(Initial(clientId, serverId, LAYOUT), run, s)
    ensures Wf(s.client) && d in s.server.net && s.server.rx == |s.client.sent| - 1 && Unacked(s.client) == 1
    ensures Unacked(Step(s.client, Op.Deliver(d))) == 0
  {
    hide Reaches, Rounds, Laid, Begun;
    var s0 := Initial(clientId, serverId, LAYOUT);
    run, s := Begins(clientId, serverId);
    run, s, d := FirstPacket(s0, run, s);
    run, s := ManyRounds(s0, run, s, 0x8001, d);
    run, s := LastWrite(s0, run, s, d);
    hide Up;
    UpIs(s.client, s.server);
    StaleAckLoses(s.client, s.server, d);
  }

  lemma LastWrite(s0: Sys, run: seq<Action>, s: Sys, d: Datagram) returns (run': seq<Action>, s': Sys)
    requires Reaches(s0, run, s) && Rounds(s, 0x8001, d)
    ensures Reaches(s0, run', s') && Up(s'.client, s'.server) && Delayed(s', d)
    ensures |s'.client.sent| == 0x8002 && Unacked(s'.client) == 1 && s'.server.rx == Base(s'.client) == 0x8001
  {
    hide Reaches, Up, Step, Enabled;
    UpIs(s.client, s.server);
    MayCall(s.client, s.server, Write(0, []));
    WriteCounts(s.client, s.server);
    run', s' := Acts(s0, run, s, false, Write(0, []));
  }
}
