/** The map does arrive: from every reachable state in which the connection is up and the map
    is not yet out, the server's own loops and a network that delivers bring it over. */
module MapArrival {
  import opened Bytes
  import opened IpxWire
  import opened IpxEndpoint
  import opened IpxSystem
  import opened IpxRecovery
  import opened MapStream

  // ----- the ids, through the events of the game -----

  lemma {:induction false} StreamIds(h: Half, peer: Half, tiles: Tiles, off: nat)
    requires Wf(h) && Wf(peer) && Ids(h, peer) && off <= MAP_BYTES
    ensures Ids(Stream(h, tiles, off).h, peer) && Stream(h, tiles, off).h.ep.state == h.ep.state
    decreases MAP_BYTES - off
  {
    hide Ids, Step, Again, ChunkMsg;
    if off < MAP_BYTES {
      var m := ChunkMsg(tiles, off);
      WriteIds(h, peer, m);
      if !Again(h, m) { StreamIds(Step(h, Op.Write(0, m)), peer, tiles, off + ChunkLen(off)); }
    } else {
      WriteIds(h, peer, [GM_MAPEND]);
    }
  }

  lemma WriteIds(h: Half, peer: Half, m: seq<u8>)
    requires Wf(h) && Wf(peer) && Ids(h, peer)
    ensures Ids(Step(h, Op.Write(0, m)), peer) && Step(h, Op.Write(0, m)).ep.state == h.ep.state
  {
    StepIds(h, peer, Op.Write(0, m));
    hide Ids, SameLayout;
  }

  lemma {:induction false} DrainedIds(h: Half, peer: Half, c: Client)
    requires Wf(h) && Wf(peer) && Ids(h, peer)
    ensures Ids(Drained(h, c).0, peer) && Drained(h, c).0.ep.state == h.ep.state
    decreases |h.ep.chans[0].queue|
  {
    hide Ids, Handle;
    var (_, n, m) := IpxEndpoint.Read(h.ep, 0, NC_MTU);
    if n >= 0 && h.ep.chans[0].queue != [] {
      var h1 := Step(h, Op.Read(0, NC_MTU));
      ReadIds(h, peer);
      if n > 0 { DrainedIds(h1, peer, Handle(c, m)); }
    }
  }

  lemma ReadIds(h: Half, peer: Half)
    requires Wf(h) && Wf(peer) && Ids(h, peer)
    ensures Ids(Step(h, Op.Read(0, NC_MTU)), peer) && Step(h, Op.Read(0, NC_MTU)).ep.state == h.ep.state
  {
    StepIds(h, peer, Op.Read(0, NC_MTU));
    hide Ids, SameLayout;
  }

  lemma IdsSymmetric(a: Half, b: Half)
    requires Ids(a, b)
    ensures Ids(b, a)
  {}

  lemma HappenIds(g: Game, tiles: Tiles, e: Event)
    requires GameWf(g) && Ids(g.net.client, g.net.server) && CanHappen(g, e)
    ensures var g' := Happen(g, tiles, e); Ids(g'.net.client, g'.net.server)
  {
    hide Ids, Step, Stream, Drained, Enabled;
    var c, s := g.net.client, g.net.server;
    IdsSymmetric(c, s);
    match e
    case Net(a) =>
      if a.atServer { ServerIds(c, s, a.op); } else { StepIds(c, s, a.op); }
    case ClientWrites(ch, data) => MayCall(c, s, Op.Write(ch, data)); StepIds(c, s, Op.Write(ch, data));
    case ClientReadsState(n) => MayCall(c, s, Op.Read(1, n)); StepIds(c, s, Op.Read(1, n));
    case ServerReads(ch, n) => MayCall(s, c, Op.Read(ch, n)); ServerIds(c, s, Op.Read(ch, n));
    case ServerState(state) => MayCall(s, c, Op.Write(1, state)); ServerIds(c, s, Op.Write(1, state));
    case Welcome(p) => MayCall(s, c, Op.Write(0, [GM_WELCOME, p])); ServerIds(c, s, Op.Write(0, [GM_WELCOME, p]));
    case Chat(text) => MayCall(s, c, Op.Write(0, [GM_CHAT] + text)); ServerIds(c, s, Op.Write(0, [GM_CHAT] + text));
    case StreamMap =>
      StreamIds(s, c, tiles, g.off);
      IdsSymmetric(Stream(s, tiles, g.off).h, c);
    case ClientDrain => DrainedIds(c, s, g.client);
  }

  lemma ServerIds(c: Half, s: Half, op: Op)
    requires Wf(c) && Wf(s) && Ids(s, c) && Enabled(s, c, op)
    ensures Ids(c, Step(s, op))
  {
    hide Ids, Step, Enabled;
    StepIds(s, c, op);
    IdsSymmetric(Step(s, op), c);
  }

  lemma {:induction false} PlayIds(g: Game, tiles: Tiles, es: seq<Event>)
    requires GameWf(g) && Ids(g.net.client, g.net.server) && CanPlay(g, tiles, es)
    ensures var g' := Play(g, tiles, es); Ids(g'.net.client, g'.net.server)
  {
    hide Ids, Happen, CanHappen;
    if es != [] {
      PlayIds(g, tiles, es[..|es| - 1]);
      HappenIds(Play(g, tiles, es[..|es| - 1]), tiles, es[|es| - 1]);
    }
  }

  // ----- runs, one event at a time -----

  predicate Reaches(g0: Game, tiles: Tiles, es: seq<Event>, g: Game) {
    GameWf(g0) && CanPlay(g0, tiles, es) && g == Play(g0, tiles, es)
  }

  lemma ReachNext(g0: Game, tiles: Tiles, es: seq<Event>, g: Game, e: Event)
    requires Reaches(g0, tiles, es, g) && CanHappen(g, e)
    ensures GameWf(g) && Reaches(g0, tiles, es + [e], Happen(g, tiles, e))
  {
    assert (es + [e])[..|es + [e]| - 1] == es;
    hide Happen, CanHappen, GameWf;
  }

  /** The game's invariant on a connection that is up. */
  predicate Live(g: Game, tiles: Tiles) { Inv(g, tiles) && Up(g.net.server, g.net.client) }

  function End(g: Game, atServer: bool): Half { if atServer then g.net.server else g.net.client }

  /** Sending and delivering leaves everything above the transport alone. */
  predicate SameTop(g: Game, g': Game) {
    && g'.off == g.off && g'.mapped == g.mapped && g'.client == g.client
    && g'.net.server.sent == g.net.server.sent && g'.net.client.got == g.net.client.got
  }

  lemma TopStep(h: Half, op: Op)
    requires Wf(h) && (op.Send? || op.Deliver?)
    ensures Step(h, op).sent == h.sent && Step(h, op).got == h.got
  {
    hide Feed, SendNext;
  }

  lemma NetStep(g0: Game, tiles: Tiles, es: seq<Event>, g: Game, atServer: bool, op: Op)
    returns (es': seq<Event>, g': Game)
    requires Reaches(g0, tiles, es, g) && Inv(g, tiles) && (op.Send? || op.Deliver?)
    requires Enabled(End(g, atServer), End(g, !atServer), op)
    ensures Reaches(g0, tiles, es', g') && Inv(g', tiles) && SameTop(g, g') && GameWf(g)
    ensures End(g', atServer) == Step(End(g, atServer), op) && End(g', !atServer) == End(g, !atServer)
  {
    hide Reaches, Step, Enabled, Link, Log, CoveredTo, HandleAll, MapStream.Open, Said;
    var e := Net(Action(atServer, op));
    ReachNext(g0, tiles, es, g, e);
    HappenKeeps(g, tiles, e);
    TopStep(End(g, atServer), op);
    es', g' := es + [e], Happen(g, tiles, e);
  }

  /** Draining one end into the other is a run of sends and deliveries. */
  lemma {:induction false} DrainRuns(g0: Game, tiles: Tiles, es: seq<Event>, g: Game, atServer: bool)
    returns (es': seq<Event>, g': Game)
    requires Reaches(g0, tiles, es, g) && Inv(g, tiles) && Up(End(g, atServer), End(g, !atServer))
    ensures Reaches(g0, tiles, es', g') && Inv(g', tiles) && SameTop(g, g')
    ensures (End(g', atServer), End(g', !atServer)) == Drain(End(g, atServer), End(g, !atServer))
    decreases Backlog(End(g, atServer).ep)
  {
    hide Reaches, Step, Up, SendNext, Backlog, Enabled, Inv;
    var tx, rx := End(g, atServer), End(g, !atServer);
    UpIs(tx, rx);
    if SendNext(tx.ep, NC_MTU).1 == [] {
      es', g' := es, g;
    } else {
      var d := Emitted(tx, NC_MTU);
      ExchangeKeeps(tx, rx);
      SendShrinks(tx.ep);
      StepOfSend(tx);
      MayCall(tx, rx, Send(NC_MTU));
      var es1, g1 := NetStep(g0, tiles, es, g, atServer, Send(NC_MTU));
      MayDeliver(rx, End(g1, atServer), d);
      var es2, g2 := NetStep(g0, tiles, es1, g1, !atServer, Op.Deliver(d));
      es', g' := DrainRuns(g0, tiles, es2, g2, atServer);
    }
  }

  // ----- the client reads everything -----

  predicate AllReadable(q: seq<seq<u8>>) { forall i :: 0 <= i < |q| ==> q[i] != [] && Short(q[i]) }

  /** Nothing the server says is empty, so the loop of client_drain reads to the end. */
  lemma Readable(g: Game, tiles: Tiles)
    requires Inv(g, tiles)
    ensures GameWf(g) && AllReadable(g.net.client.ep.chans[0].queue)
  {
    var c, s := g.net.client, g.net.server;
    LinkSymmetric(c, s);
    assert ExactPrefix(s, c) && ChanOk(c.ep.chans[0]) by { hide HalfOk, WindowRefines; }
    assert Received(c, 0) == Project(s.sent[..c.rx], 0) by { hide HalfOk, WindowRefines; }
    ProjectPrefix(s.sent, c.rx, 0);
    hide Link, Project, ExactPrefix, MapStream.Open, CoveredTo;
    var q, got := c.ep.chans[0].queue, c.got[0];
    forall i | 0 <= i < |q| ensures q[i] != [] {
      assert (got + q)[|got| + i] == q[i];
      assert Said(s)[|got| + i] == q[i];
      assert Honest(Said(s)[|got| + i], tiles);
    }
  }

  lemma {:induction false} DrainedEmpties(h: Half, c: Client)
    requires Wf(h) && AllReadable(h.ep.chans[0].queue)
    ensures var h' := Drained(h, c).0;
      && h'.ep.chans[0].queue == [] && h'.rx == h.rx && h'.got[0] == h.got[0] + h.ep.chans[0].queue
    decreases |h.ep.chans[0].queue|
  {
    hide Handle;
    var q := h.ep.chans[0].queue;
    var (_, n, m) := IpxEndpoint.Read(h.ep, 0, NC_MTU);
    if q != [] {
      var h1 := Step(h, Op.Read(0, NC_MTU));
      assert n == |q[0]| > 0 && m == q[0];
      assert h1.ep.chans[0].queue == q[1..] && h1.got[0] == h.got[0] + [q[0]] && h1.rx == h.rx;
      DrainedEmpties(h1, Handle(c, m));
      assert [q[0]] + q[1..] == q;
    } else {
      assert h.got[0] + q == h.got[0];
    }
  }

  /** client_drain: the queue is empty and all that was received is handled. */
  lemma ReadAll(g0: Game, tiles: Tiles, es: seq<Event>, g: Game) returns (es': seq<Event>, g': Game)
    requires Reaches(g0, tiles, es, g) && Live(g, tiles)
    ensures Reaches(g0, tiles, es', g') && Live(g', tiles)
    ensures g'.net.server == g.net.server && g'.off == g.off && g'.mapped == g.mapped
    ensures g'.net.client.ep.chans[0].queue == [] && g'.net.client.rx == g.net.client.rx
  {
    hide Reaches, Up, Drained, Inv, AllReadable, Ids;
    Readable(g, tiles);
    UpIs(g.net.server, g.net.client);
    DrainedEmpties(g.net.client, g.client);
    ReachNext(g0, tiles, es, g, ClientDrain);
    HappenKeeps(g, tiles, ClientDrain);
    es', g' := es + [ClientDrain], Happen(g, tiles, ClientDrain);
    IdsSymmetric(g.net.server, g.net.client);
    DrainedIds(g.net.client, g.net.server, g.client);
    LiveIs(g', tiles);
  }

  lemma LiveIs(g: Game, tiles: Tiles)
    requires Inv(g, tiles) && Ids(g.net.client, g.net.server)
    requires g.net.client.ep.state == Connected && g.net.server.ep.state == Connected
    ensures Live(g, tiles)
  {
    hide Link, Log, CoveredTo, HandleAll, MapStream.Open, Said, Identified;
    LinkSymmetric(g.net.client, g.net.server);
  }

  // ----- the server writes as much as there is room for -----

  predicate EndSaid(h: Half) { [GM_MAPEND] in Said(h) }

  /** With the window empty at least one chunk goes out, or the end. */
  lemma StreamMoves(h: Half, peer: Half, tiles: Tiles, off: nat)
    requires Link(h, peer) && MapStream.Open(h) && h.ep.state == Connected && off <= MAP_BYTES && Unacked(h) == 0
    ensures var r := Stream(h, tiles, off); r.off > off || r.mapped
  {
    hide Link, MapStream.Open, Stream, Step;
    LinkWf(h, peer);
    if off < MAP_BYTES {
      var m := ChunkMsg(tiles, off);
      ChunkIsHonest(tiles, off);
      NotAgain(h, m);
      StreamOnce(h, tiles, off);
      StreamForward(Step(h, Op.Write(0, m)), tiles, off + ChunkLen(off));
    } else {
      NotAgain(h, [GM_MAPEND]);
      StreamEnds(h, tiles);
    }
  }

  lemma NotAgain(h: Half, m: seq<u8>)
    requires Wf(h) && Unacked(h) == 0 && Short(m)
    ensures !Again(h, m)
  {}

  lemma StreamOnce(h: Half, tiles: Tiles, off: nat)
    requires Wf(h) && off < MAP_BYTES && !Again(h, ChunkMsg(tiles, off))
    ensures Stream(h, tiles, off) == Stream(Step(h, Op.Write(0, ChunkMsg(tiles, off))), tiles, off + ChunkLen(off))
  {
    hide Step, Again, ChunkMsg;
  }

  lemma StreamEnds(h: Half, tiles: Tiles)
    requires Wf(h)
    ensures Stream(h, tiles, MAP_BYTES).mapped == !Again(h, [GM_MAPEND])
  {
    hide Step, Again;
  }

  lemma {:induction false} StreamForward(h: Half, tiles: Tiles, off: nat)
    requires Wf(h) && off <= MAP_BYTES
    ensures Stream(h, tiles, off).off >= off
    decreases MAP_BYTES - off
  {
    hide Step, Again, ChunkMsg;
    if off < MAP_BYTES && !Again(h, ChunkMsg(tiles, off)) {
      StreamForward(Step(h, Op.Write(0, ChunkMsg(tiles, off))), tiles, off + ChunkLen(off));
    }
  }

  /** Streaming moves neither end of what is acknowledged or sent, and says the end if it
      reports the map as out. */
  lemma {:induction false} StreamCounts(h: Half, peer: Half, tiles: Tiles, off: nat)
    requires Link(h, peer) && MapStream.Open(h) && h.ep.state == Connected && off <= MAP_BYTES
    ensures var r := Stream(h, tiles, off);
      Base(r.h) == Base(h) && Unsent(r.h) == Unsent(h) && (r.mapped ==> EndSaid(r.h)) && r.h.rx == h.rx
    decreases MAP_BYTES - off
  {
    hide Link, Step, MapStream.Open, Said, Again, Base, Unsent, ChunkMsg;
    LinkWf(h, peer);
    if off < MAP_BYTES {
      var m := ChunkMsg(tiles, off);
      if !Again(h, m) {
        ChunkIsHonest(tiles, off);
        WriteKeeps(h, peer, 0, m);
        WriteSaid(h, m);
        WriteMoves(h, peer, m);
        StreamCounts(Step(h, Op.Write(0, m)), peer, tiles, off + ChunkLen(off));
      }
    } else {
      EndIsHonest(tiles);
      WriteSaid(h, [GM_MAPEND]);
      WriteMoves(h, peer, [GM_MAPEND]);
      if !Again(h, [GM_MAPEND]) {
        var h' := Step(h, Op.Write(0, [GM_MAPEND]));
        assert Said(h')[|Said(h)|] == [GM_MAPEND];
      }
    }
  }

  lemma WriteMoves(h: Half, peer: Half, m: seq<u8>)
    requires Link(h, peer)
    ensures var h' := Step(h, Op.Write(0, m)); Base(h') == Base(h) && Unsent(h') == Unsent(h) && h'.rx == h.rx
  {
    hide Link, SameLayout, Add16, Sub16, ChanOk, Short;
    WindowIs(h, peer);
    Counted16(h.ep.txNext, h.ep.txBase);
    Counted16(h.ep.txNext, h.ep.txUnsent);
    LinkWf(h, peer);
  }

  lemma Counted16(next: u16, at: u16)
    requires Sub16(next, at) < 0xffff
    ensures Sub16(Add16(next, 1), at) == Sub16(next, at) + 1
  {}

  // ----- one round -----

  /** All that was written has arrived and is acknowledged. */
  predicate Settled(g: Game, tiles: Tiles) {
    Live(g, tiles) && Base(g.net.server) == |g.net.server.sent| == g.net.client.rx
  }

  lemma RoomAgain(c: Half)
    requires Wf(c) && MapStream.Open(c) && c.ep.chans[0].queue == []
    ensures RoomFor(c, NC_WINDOW)
  {}

  /** What the server has not sent goes over and is acknowledged. */
  lemma Over(g0: Game, tiles: Tiles, es: seq<Event>, g: Game) returns (es': seq<Event>, g': Game)
    requires Reaches(g0, tiles, es, g) && Live(g, tiles) && RoomFor(g.net.client, NC_WINDOW)
    requires Unsent(g.net.server) == Base(g.net.server)
    ensures Reaches(g0, tiles, es', g') && Settled(g', tiles) && SameTop(g, g')
  {
    hide Reaches, Inv, Up, Drain, Link, Base, Unsent, RoomFor;
    var s, c := g.net.server, g.net.client;
    UpIs(s, c);
    WindowIs(s, c);
    RoomForLess(c, NC_WINDOW, |s.sent| - c.rx);
    DrainDelivers(s, c);
    var es1, g1 := DrainRuns(g0, tiles, es, g, true);
    UpSymmetric(g1.net.server, g1.net.client);
    DrainAcks(g1.net.client, g1.net.server);
    es', g' := DrainRuns(g0, tiles, es1, g1, false);
    UpSymmetric(g'.net.client, g'.net.server);
    UpIs(g'.net.server, g'.net.client);
    WindowIs(g'.net.server, g'.net.client);
  }

  lemma OpenIs(g: Game, tiles: Tiles)
    requires Inv(g, tiles)
    ensures GameWf(g) && MapStream.Open(g.net.client) && MapStream.Open(g.net.server)
  {}

  /** stream_map with nothing outstanding. */
  lemma Streams(g0: Game, tiles: Tiles, es: seq<Event>, g: Game) returns (es': seq<Event>, g': Game)
    requires Reaches(g0, tiles, es, g) && Settled(g, tiles) && !g.mapped
    ensures Reaches(g0, tiles, es', g') && Live(g', tiles) && g'.net.client == g.net.client
    ensures Unsent(g'.net.server) == Base(g'.net.server)
    ensures (g'.mapped && EndSaid(g'.net.server)) || (!g'.mapped && g'.off > g.off)
  {
    hide Reaches, Inv, Up, Stream, Link, Base, Unsent, MapStream.Open, EndSaid;
    var s, c := g.net.server, g.net.client;
    UpIs(s, c);
    OpenIs(g, tiles);
    WindowIs(s, c);
    NoneUnacked(s);
    StreamMoves(s, c, tiles, g.off);
    StreamCounts(s, c, tiles, g.off);
    StreamIds(s, c, tiles, g.off);
    ReachNext(g0, tiles, es, g, StreamMap);
    HappenKeeps(g, tiles, StreamMap);
    es', g' := es + [StreamMap], Happen(g, tiles, StreamMap);
    IdsSymmetric(g'.net.server, g'.net.client);
    LiveIs(g', tiles);
  }

  lemma NoneUnacked(h: Half)
    requires Base(h) == |h.sent|
    ensures Unacked(h) == 0
  {}

  /** Round after round, until the end is out and has arrived. */
  lemma {:induction false} AllRounds(g0: Game, tiles: Tiles, es: seq<Event>, g: Game)
    returns (es': seq<Event>, g': Game)
    requires Reaches(g0, tiles, es, g) && Settled(g, tiles) && !g.mapped && g.off <= MAP_BYTES
    ensures Reaches(g0, tiles, es', g') && Settled(g', tiles) && EndSaid(g'.net.server)
    decreases MAP_BYTES - g.off
  {
    hide Reaches, Inv, Up, Base, Unsent, RoomFor, MapStream.Open;
    var es1, g1 := ReadAll(g0, tiles, es, g);
    var es2, g2 := Streams(g0, tiles, es1, g1);
    OpenIs(g2, tiles);
    RoomAgain(g2.net.client);
    es', g' := Over(g0, tiles, es2, g2);
    if !g'.mapped {
      OpenIs(g', tiles);
      es', g' := AllRounds(g0, tiles, es', g');
    }
  }

  lemma {:induction false} EndIsHandled(c: Client, ms: seq<seq<u8>>)
    requires [GM_MAPEND] in ms
    ensures HandleAll(c, ms).haveMap
  {
    var n := |ms| - 1;
    if ms[n] != [GM_MAPEND] {
      assert [GM_MAPEND] in ms[..n];
      EndIsHandled(c, ms[..n]);
    }
  }

  /** A client that has read all of it has the map. */
  lemma ReadsEnd(g: Game, tiles: Tiles)
    requires Settled(g, tiles) && EndSaid(g.net.server) && g.net.client.ep.chans[0].queue == []
    ensures g.client.haveMap
  {
    var c, s := g.net.client, g.net.server;
    assert Received(c, 0) == Project(s.sent[..c.rx], 0) by { hide HalfOk, WindowRefines, Base; }
    assert s.sent[..c.rx] == s.sent;
    assert c.got[0] == Said(s) by { hide Link, Project; }
    hide Link, Project, Log, CoveredTo, MapStream.Open;
    EndIsHandled(BLANK, c.got[0]);
  }

  /** From every reachable state in which both ends are connected, the map is not out and the
      server has not given up, there is a way on: the client reads, a timeout, packets both
      ways, and rounds of streaming. At its end the client has the map, and it is right. */
  lemma MapArrives(clientId: u32, serverId: u32, tiles: Tiles, es: seq<Event>, now: u32) returns (es': seq<Event>)
    requires CanPlay(Start(clientId, serverId), tiles, es)
    requires var g := Play(Start(clientId, serverId), tiles, es);
      && g.net.client.ep.state == Connected && g.net.server.ep.state == Connected && !g.mapped
      && TimeoutDue(g.net.server, now)
    ensures var g := Play(Start(clientId, serverId), tiles, es);
      CanPlay(g, tiles, es') && var g' := Play(g, tiles, es'); g'.client.haveMap && g'.client.tiles == tiles
  {
    hide Inv, Ids, TimeoutDue, Play, CanPlay;
    var g0 := Start(clientId, serverId);
    var g := Play(g0, tiles, es);
    StartIsFine(clientId, serverId, tiles);
    StartIds(clientId, serverId);
    PlayKeeps(g0, tiles, es);
    PlayIds(g0, tiles, es);
    LiveIs(g, tiles);
    es' := Continue(g, tiles, now);
    PlayKeeps(g, tiles, es');
    AnnouncedIsRight(Play(g, tiles, es'), tiles);
  }

  lemma StartIds(clientId: u32, serverId: u32)
    ensures var g := Start(clientId, serverId); Ids(g.net.client, g.net.server)
  {}

  lemma Continue(g: Game, tiles: Tiles, now: u32) returns (es: seq<Event>)
    requires GameWf(g) && Live(g, tiles) && !g.mapped && TimeoutDue(g.net.server, now)
    ensures CanPlay(g, tiles, es) && Play(g, tiles, es).client.haveMap
  {
    assert Reaches(g, tiles, [], g);
    hide Reaches, Inv, Up, Base, Unsent, RoomFor, MapStream.Open, TimeoutDue;
    var es1, g1 := ReadAll(g, tiles, [], g);
    var es2, g2 := Rewound(g, tiles, es1, g1, now);
    OpenIs(g2, tiles);
    RoomAgain(g2.net.client);
    var es3, g3 := Over(g, tiles, es2, g2);
    OpenIs(g3, tiles);
    var es4, g4 := AllRounds(g, tiles, es3, g3);
    var es5, g5 := ReadAll(g, tiles, es4, g4);
    ReadsEnd(g5, tiles);
    es := es5;
    ReachesIs(g, tiles, es, g5);
  }

  lemma ReachesIs(g0: Game, tiles: Tiles, es: seq<Event>, g: Game)
    requires Reaches(g0, tiles, es, g)
    ensures GameWf(g0) && CanPlay(g0, tiles, es) && g == Play(g0, tiles, es)
  {}

  lemma Rewound(g0: Game, tiles: Tiles, es: seq<Event>, g: Game, now: u32) returns (es': seq<Event>, g': Game)
    requires Reaches(g0, tiles, es, g) && Live(g, tiles) && TimeoutDue(g.net.server, now)
    ensures Reaches(g0, tiles, es', g') && Live(g', tiles) && g'.net.client == g.net.client
    ensures Unsent(g'.net.server) == Base(g'.net.server) && g'.mapped == g.mapped && g'.off == g.off
  {
    hide Reaches, Inv, Up, Base, Unsent, Step;
    var e := Net(Action(true, Service(now)));
    TimeoutRewinds(g.net.server, g.net.client, now);
    ReachNext(g0, tiles, es, g, e);
    HappenKeeps(g, tiles, e);
    es', g' := es + [e], Happen(g, tiles, e);
  }
}
