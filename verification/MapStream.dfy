/** The map transfer of the game, on top of the netchan-ipx system: the server
    streams its tiles in chunks over reliable channel 0, between other messages and
    across full windows; the client assembles them until it sees the end marker. */
module MapStream {
  import opened Bytes
  import opened IpxWire
  import opened IpxEndpoint
  import opened IpxSystem

  const MAP_BYTES := 96 * 64
  const MAP_CHUNK := 512

  const GM_WELCOME: u8 := 1
  const GM_MAP: u8 := 2
  const GM_MAPEND: u8 := 3
  const GM_CHAT: u8 := 4

  /** The channel layout of the game: 0 reliable, 1 unreliable. */
  const LAYOUT: seq<(bool, ChanType)> := [(true, Reliable), (true, Unreliable)]

  function Walls(n: nat): (t: seq<u8>)
    ensures |t| == n
  {
    seq(n, _ => 0)
  }

  type Tiles = t: seq<u8> | |t| == MAP_BYTES witness Walls(MAP_BYTES)

  // ----- server side -----

  function ChunkLen(off: nat): (n: nat)
    requires off < MAP_BYTES
    ensures 0 < n && off + n <= MAP_BYTES
  {
    if MAP_BYTES - off > MAP_CHUNK then MAP_CHUNK else MAP_BYTES - off
  }

  function ChunkMsg(tiles: Tiles, off: nat): (m: seq<u8>)
    requires off < MAP_BYTES
  {
    [GM_MAP] + Wr16(off) + Wr16(ChunkLen(off)) + tiles[off..off + ChunkLen(off)]
  }

  /** Where stream_map stops: the connection, map_off and the mapped flag. */
  datatype Streamed = Streamed(h: Half, off: nat, mapped: bool)

  /** nc_write at the server refuses because the window is full. */
  predicate Again(h: Half, data: seq<u8>)
    requires Wf(h)
  {
    IpxEndpoint.Write(h.ep, 0, data).1 == NC_ERR_AGAIN
  }

  /** stream_map from offset `off`: only a full window makes it stop and resume. */
  function Stream(h: Half, tiles: Tiles, off: nat): (r: Streamed)
    requires Wf(h) && off <= MAP_BYTES
    ensures Wf(r.h) && r.off <= MAP_BYTES
    decreases MAP_BYTES - off
  {
    if off < MAP_BYTES then
      var m := ChunkMsg(tiles, off);
      if Again(h, m) then Streamed(h, off, false)
      else Stream(Step(h, Op.Write(0, m)), tiles, off + ChunkLen(off))
    else
      Streamed(Step(h, Op.Write(0, [GM_MAPEND])), off, !Again(h, [GM_MAPEND]))
  }

  // ----- client side -----

  datatype Client = Client(tiles: Tiles, mapOff: u16, haveMap: bool, player: u8)

  /** One reliable message in client_drain. */
  function Handle(c: Client, m: seq<u8>): Client {
    if m == [] then c
    else if m[0] == GM_WELCOME then
      if |m| >= 2 then c.(player := m[1]) else c
    else if m[0] == GM_MAP then
      if |m| < 5 then c
      else
        var off, ln := Rd16(m[1..3]), Rd16(m[3..5]);
        if off + ln as int <= MAP_BYTES && 5 + ln as int <= |m| then
          c.(tiles := c.tiles[..off] + m[5..5 + ln] + c.tiles[off + ln..], mapOff := off + ln as int)
        else c
    else if m[0] == GM_MAPEND then c.(haveMap := true)
    else c
  }

  /** A chunk that stays inside the map and has all its tiles: offset and length are 16 bits each,
      most significant byte first. */
  predicate WholeChunk(m: seq<u8>) {
    && |m| >= 5 && m[0] == 2
    && ChunkAt(m) + ChunkSize(m) <= MAP_BYTES && 5 + ChunkSize(m) <= |m|
  }

  function ChunkAt(m: seq<u8>): nat
    requires |m| >= 5
  {
    (m[1] as int) * 0x100 + m[2]
  }

  function ChunkSize(m: seq<u8>): nat
    requires |m| >= 5
  {
    (m[3] as int) * 0x100 + m[4]
  }

  /** What a message does to a client: a whole chunk replaces its tiles, the end marker completes
      the map, a welcome tells the player's number, and anything else is ignored. */
  lemma HandleExactly(c: Client, m: seq<u8>)
    ensures var c' := Handle(c, m);
      && (forall i :: 0 <= i < MAP_BYTES ==>
            c'.tiles[i] == if WholeChunk(m) && ChunkAt(m) <= i < ChunkAt(m) + ChunkSize(m) then m[5 + i - ChunkAt(m)]
                           else c.tiles[i])
      && c'.mapOff == (if WholeChunk(m) then ChunkAt(m) + ChunkSize(m) else c.mapOff)
      && (c'.haveMap <==> c.haveMap || (m != [] && m[0] == 3))
      && c'.player == if |m| >= 2 && m[0] == 1 then m[1] else c.player
  {
    if WholeChunk(m) {
      assert Rd16(m[1..3]) == ChunkAt(m) && Rd16(m[3..5]) == ChunkSize(m);
    }
  }

  function HandleAll(c: Client, ms: seq<seq<u8>>): Client {
    if ms == [] then c else Handle(HandleAll(c, ms[..|ms| - 1]), ms[|ms| - 1])
  }

  /** The reliable loop of client_drain: read and handle until nc_read gives nothing. */
  function Drained(h: Half, c: Client): (r: (Half, Client))
    requires Wf(h)
    ensures Wf(r.0)
    decreases |h.ep.chans[0].queue|
  {
    var (_, n, m) := IpxEndpoint.Read(h.ep, 0, NC_MTU);
    var h' := Step(h, Op.Read(0, NC_MTU));
    if n < 0 || h.ep.chans[0].queue == [] then (h, c)
    else if n == 0 then (h', c)
    else Drained(h', Handle(c, m))
  }

  // ----- the two programs over the network -----

  datatype Game = Game(net: Sys, off: nat, mapped: bool, client: Client)

  datatype Event =
    | Net(a: Action)             // handshake, packets and timers on either side
    | ClientWrites(ch: int, data: seq<u8>)
    | ClientReadsState(buflen: nat)
    | ServerReads(rch: int, buflen: nat)
    | ServerState(state: seq<u8>)
    | Welcome(player: u8)
    | Chat(text: seq<u8>)
    | StreamMap
    | ClientDrain

  predicate CanHappen(g: Game, e: Event) {
    match e
    case Net(a) => CanAct(g.net, a) && !a.op.Write? && !a.op.Read?
    case StreamMap => !g.mapped
    case _ => true
  }

  predicate GameWf(g: Game) { SysWf(g.net) && g.off <= MAP_BYTES }

  function AtServer(g: Game, op: Op): (r: Game)
    requires GameWf(g)
    ensures GameWf(r)
  {
    g.(net := g.net.(server := Step(g.net.server, op)))
  }

  function AtClient(g: Game, op: Op): (r: Game)
    requires GameWf(g)
    ensures GameWf(r)
  {
    g.(net := g.net.(client := Step(g.net.client, op)))
  }

  /** A connection event greets the client and starts the map from the beginning;
      chat is relayed by the server; nothing waits for the writes to succeed. */
  function Happen(g: Game, tiles: Tiles, e: Event): (r: Game)
    requires GameWf(g)
    ensures GameWf(r)
  {
    match e
    case Net(a) => g.(net := Act(g.net, a))
    case ClientWrites(ch, data) => AtClient(g, Op.Write(ch, data))
    case ClientReadsState(buflen) => AtClient(g, Op.Read(1, buflen))
    case ServerReads(ch, buflen) => AtServer(g, Op.Read(ch, buflen))
    case ServerState(state) => AtServer(g, Op.Write(1, state))
    case Welcome(player) => AtServer(g, Op.Write(0, [GM_WELCOME, player])).(off := 0, mapped := false)
    case Chat(text) => AtServer(g, Op.Write(0, [GM_CHAT] + text))
    case StreamMap =>
      var s := Stream(g.net.server, tiles, g.off);
      g.(net := g.net.(server := s.h), off := s.off, mapped := s.mapped)
    case ClientDrain =>
      var (h, c) := Drained(g.net.client, g.client);
      g.(net := g.net.(client := h), client := c)
  }

  function Play(g: Game, tiles: Tiles, es: seq<Event>): (r: Game)
    requires GameWf(g)
    ensures GameWf(r)
  {
    if es == [] then g else Happen(Play(g, tiles, es[..|es| - 1]), tiles, es[|es| - 1])
  }

  predicate CanPlay(g: Game, tiles: Tiles, es: seq<Event>)
    requires GameWf(g)
  {
    es == [] ||
    (CanPlay(g, tiles, es[..|es| - 1]) && CanHappen(Play(g, tiles, es[..|es| - 1]), es[|es| - 1]))
  }

  const BLANK := Client(Walls(MAP_BYTES), 0, false, 0xff)

  function Start(clientId: u32, serverId: u32): (g: Game)
    ensures GameWf(g)
  {
    Game(Initial(clientId, serverId, LAYOUT), 0, false, BLANK)
  }

  // ----- what the server has said so far -----

  /** A map message whose bytes are the server's tiles at its offset. */
  predicate IsChunk(m: seq<u8>, tiles: Tiles) {
    && |m| >= 5 && m[0] == GM_MAP
    && var off, ln := Rd16(m[1..3]), Rd16(m[3..5]);
       off + ln as int <= MAP_BYTES && |m| == 5 + ln as int && m[5..] == tiles[off..off + ln as int]
  }

  predicate Honest(m: seq<u8>, tiles: Tiles) {
    m != [] && (m[0] == GM_MAP ==> IsChunk(m, tiles))
  }

  predicate Covers(m: seq<u8>, i: int) {
    |m| >= 5 && m[0] == GM_MAP && Rd16(m[1..3]) <= i < Rd16(m[1..3]) + Rd16(m[3..5]) as int
  }

  predicate Covered(ms: seq<seq<u8>>, i: int) {
    exists k :: 0 <= k < |ms| && Covers(ms[k], i)
  }

  predicate CoveredTo(ms: seq<seq<u8>>, n: int) {
    forall i :: 0 <= i < n ==> Covered(ms, i)
  }

  /** Every message is honest, and an end marker comes only after the whole map. */
  predicate Log(ms: seq<seq<u8>>, tiles: Tiles) {
    && (forall k :: 0 <= k < |ms| ==> Honest(ms[k], tiles))
    && (forall k :: 0 <= k < |ms| && ms[k] != [] && ms[k][0] == GM_MAPEND ==> CoveredTo(ms[..k], MAP_BYTES))
  }

  lemma CoveredToGrows(ms: seq<seq<u8>>, m: seq<u8>, n: int)
    requires CoveredTo(ms, n)
    ensures CoveredTo(ms + [m], n)
  {
    forall i | 0 <= i < n ensures Covered(ms + [m], i) {
      assert Covered(ms, i);
      var k :| 0 <= k < |ms| && Covers(ms[k], i);
      assert Covers((ms + [m])[k], i);
    }
  }

  lemma LogGrows(ms: seq<seq<u8>>, m: seq<u8>, tiles: Tiles)
    requires Log(ms, tiles) && Honest(m, tiles) && (m[0] == GM_MAPEND ==> CoveredTo(ms, MAP_BYTES))
    ensures Log(ms + [m], tiles)
  {
    hide CoveredTo, Honest;
    var all := ms + [m];
    forall k | 0 <= k < |all| && all[k] != [] && all[k][0] == GM_MAPEND
      ensures CoveredTo(all[..k], MAP_BYTES)
    {
      assert all[..k] == if k == |ms| then ms else ms[..k];
    }
  }

  lemma LogPrefix(ms: seq<seq<u8>>, n: nat, tiles: Tiles)
    requires Log(ms, tiles) && n <= |ms|
    ensures Log(ms[..n], tiles)
  {
    hide CoveredTo, Honest;
    forall k | 0 <= k < n ensures ms[..n][..k] == ms[..k] {}
  }

  // ----- what the client makes of it -----

  /** Handling an honest chunk makes its range right and leaves the rest alone. */
  lemma HandleHonest(c: Client, m: seq<u8>, tiles: Tiles, i: int)
    requires Honest(m, tiles) && 0 <= i < MAP_BYTES
    ensures Handle(c, m).tiles[i] == if Covers(m, i) then tiles[i] else c.tiles[i]
  {
    if m[0] == GM_MAP {
      var off, ln := Rd16(m[1..3]), Rd16(m[3..5]);
      if off <= i < off + ln as int {
        assert m[5..5 + ln][i - off] == m[5..][i - off] == tiles[i];
      }
    }
  }

  /** Every covered tile is right, and the map is announced only by an end marker. */
  lemma {:induction false} HandledTiles(ms: seq<seq<u8>>, tiles: Tiles)
    requires Log(ms, tiles)
    ensures forall i :: 0 <= i < MAP_BYTES && Covered(ms, i) ==> HandleAll(BLANK, ms).tiles[i] == tiles[i]
    ensures HandleAll(BLANK, ms).haveMap ==> CoveredTo(ms, MAP_BYTES)
    decreases |ms|
  {
    if ms != [] {
      var n := |ms| - 1;
      var init, m := ms[..n], ms[n];
      LogPrefix(ms, n, tiles);
      HandledTiles(init, tiles);
      assert ms == init + [m];
      forall i | 0 <= i < MAP_BYTES && Covered(ms, i)
        ensures HandleAll(BLANK, ms).tiles[i] == tiles[i]
      {
        HandleHonest(HandleAll(BLANK, init), m, tiles, i);
        if !Covers(m, i) {
          var k :| 0 <= k < |ms| && Covers(ms[k], i);
          assert Covers(init[k], i);
        }
      }
      if HandleAll(BLANK, ms).haveMap {
        assert CoveredTo(init, MAP_BYTES);
        CoveredToGrows(init, m, MAP_BYTES);
      }
    }
  }

  // ----- the invariant of every run -----

  /** Everything nc_write accepted from the server on channel 0. */
  function Said(h: Half): seq<seq<u8>> { Project(h.sent, 0) }

  predicate Open(h: Half)
    requires Wf(h)
  {
    IsReliable(h.ep, 0) && h.ep.chans[1].used && h.ep.chans[1].typ == Unreliable
  }

  predicate Inv(g: Game, tiles: Tiles) {
    && GameWf(g)
    && Link(g.net.client, g.net.server)
    && Open(g.net.client) && Open(g.net.server)
    && Log(Said(g.net.server), tiles)
    && (!g.mapped ==> CoveredTo(Said(g.net.server), g.off))
    && g.client == HandleAll(BLANK, g.net.client.got[0])
  }

  /** What a write on channel 0 does to the log. */
  lemma WriteSaid(h: Half, data: seq<u8>)
    requires Wf(h) && Open(h)
    ensures var h' := Step(h, Op.Write(0, data));
            && (Said(h') == Said(h) || Said(h') == Said(h) + [data])
            && (h.ep.state == Connected && Short(data) && !Again(h, data) ==> Said(h') == Said(h) + [data])
            && h'.ep.state == h.ep.state && Open(h') && h'.got == h.got
            && (h.ep.state != Connected || Again(h, data) ==> h' == h)
  {
    hide SameLayout, Project;
    ProjectAppend(h.sent, Msg(0, data), 0);
  }

  lemma ChunkIsHonest(tiles: Tiles, off: nat)
    requires off < MAP_BYTES
    ensures var m := ChunkMsg(tiles, off);
            && Honest(m, tiles) && Short(m) && m[0] == GM_MAP
            && forall i :: off <= i < off + ChunkLen(off) ==> Covers(m, i)
  {
    var m, n := ChunkMsg(tiles, off), ChunkLen(off);
    assert m[1..3] == Wr16(off) && m[3..5] == Wr16(n);
    assert m[5..] == tiles[off..off + n];
  }

  lemma CoverMore(ms: seq<seq<u8>>, m: seq<u8>, off: int, end: int)
    requires CoveredTo(ms, off) && forall i :: off <= i < end ==> Covers(m, i)
    ensures CoveredTo(ms + [m], end)
  {
    CoveredToGrows(ms, m, off);
    forall i | off <= i < end ensures Covered(ms + [m], i) {
      assert Covers((ms + [m])[|ms|], i);
    }
  }

  /** On a connection that is not up nothing is written, but the offset runs to the
      end and the transfer counts as finished. */
  lemma {:induction false} StreamDown(h: Half, tiles: Tiles, off: nat)
    requires Wf(h) && Open(h) && h.ep.state != Connected && off <= MAP_BYTES
    ensures Stream(h, tiles, off) == Streamed(h, MAP_BYTES, true)
    decreases MAP_BYTES - off
  {
    hide SameLayout, Project;
    if off < MAP_BYTES {
      WriteSaid(h, ChunkMsg(tiles, off));
      StreamDown(h, tiles, off + ChunkLen(off));
    } else {
      WriteSaid(h, [GM_MAPEND]);
    }
  }

  /** Streaming on a live connection extends the log chunk by chunk. */
  lemma {:induction false} StreamUp(h: Half, peer: Half, tiles: Tiles, off: nat)
    requires Link(h, peer) && Open(h) && h.ep.state == Connected && off <= MAP_BYTES
    requires Log(Said(h), tiles) && CoveredTo(Said(h), off)
    ensures var r := Stream(h, tiles, off);
            && Link(r.h, peer) && Open(r.h) && r.h.got == h.got
            && Log(Said(r.h), tiles)
            && (!r.mapped ==> CoveredTo(Said(r.h), r.off))
    decreases MAP_BYTES - off
  {
    hide Link, Step, Log, CoveredTo, Honest, Covers, ChunkMsg, Open, Said, Again;
    LinkWf(h, peer);
    if off < MAP_BYTES {
      var m, n := ChunkMsg(tiles, off), ChunkLen(off);
      ChunkIsHonest(tiles, off);
      WriteSaid(h, m);
      WriteKeeps(h, peer, 0, m);
      if !Again(h, m) {
        LogGrows(Said(h), m, tiles);
        CoverMore(Said(h), m, off, off + n);
        StreamUp(Step(h, Op.Write(0, m)), peer, tiles, off + n);
      }
    } else {
      var m := [GM_MAPEND];
      EndIsHonest(tiles);
      WriteSaid(h, m);
      WriteKeeps(h, peer, 0, m);
      LogGrows(Said(h), m, tiles);
    }
  }

  lemma EndIsHonest(tiles: Tiles)
    ensures Honest([GM_MAPEND], tiles) && Short([GM_MAPEND])
  {}

  lemma LinkWf(a: Half, b: Half)
    requires Link(a, b)
    ensures Wf(a) && Wf(b)
  {}

  /** Calls other than a read or a reliable write leave the logs of this layer alone. */
  lemma StepQuiet(h: Half, op: Op)
    requires Wf(h) && Open(h)
    ensures var h' := Step(h, op);
            && Open(h')
            && (!op.Read? || op.rch != 0 ==> h'.got[0] == h.got[0])
            && (!op.Write? || op.ch != 0 ==> Said(h') == Said(h))
  {
    hide Feed, SendNext, IpxEndpoint.Service, Sub16, Project;
  }

  /** The client side after reading: the log of reads and the handled state agree. */
  lemma {:induction false} DrainedTracks(h: Half, peer: Half, c: Client)
    requires Link(h, peer) && Open(h) && c == HandleAll(BLANK, h.got[0])
    ensures var (h', c') := Drained(h, c);
            && Link(h', peer) && Open(h') && c' == HandleAll(BLANK, h'.got[0])
            && h'.sent == h.sent
    decreases |h.ep.chans[0].queue|
  {
    hide Link, Handle;
    LinkWf(h, peer);
    var (_, n, m) := IpxEndpoint.Read(h.ep, 0, NC_MTU);
    if n >= 0 && h.ep.chans[0].queue != [] {
      var h1 := Step(h, Op.Read(0, NC_MTU));
      ReadKeeps(h, peer, 0, NC_MTU);
      StepQuiet(h, Op.Read(0, NC_MTU));
      assert h1.got[0] == h.got[0] + [m];
      assert h1.got[0][..|h1.got[0]| - 1] == h.got[0];
      assert HandleAll(BLANK, h1.got[0]) == Handle(c, m);
      if n > 0 {
        DrainedTracks(h1, peer, Handle(c, m));
      } else {
        EmptyIsIgnored(c);
      }
    }
  }

  lemma EmptyIsIgnored(c: Client)
    ensures Handle(c, []) == c
  {}

  lemma ServerWrites(g: Game, tiles: Tiles, data: seq<u8>)
    requires Inv(g, tiles) && Honest(data, tiles) && data[0] != GM_MAPEND
    ensures Inv(AtServer(g, Op.Write(0, data)), tiles)
  {
    hide Link, Step, Log, CoveredTo, Honest, Open, HandleAll, Said;
    var s, c := g.net.server, g.net.client;
    LinkSymmetric(c, s);
    WriteKeeps(s, c, 0, data);
    LinkSymmetric(Step(s, Op.Write(0, data)), c);
    WriteSaid(s, data);
    LogGrows(Said(s), data, tiles);
    if !g.mapped { CoveredToGrows(Said(s), data, g.off); }
  }

  lemma NothingCovered(ms: seq<seq<u8>>)
    ensures CoveredTo(ms, 0)
  {}

  lemma ServerStreams(g: Game, tiles: Tiles)
    requires Inv(g, tiles) && !g.mapped
    ensures Inv(Happen(g, tiles, StreamMap), tiles)
  {
    hide Link, Log, CoveredTo, HandleAll, Stream, Said, Open;
    var s, c := g.net.server, g.net.client;
    LinkSymmetric(c, s);
    if s.ep.state == Connected {
      StreamUp(s, c, tiles, g.off);
      LinkSymmetric(Stream(s, tiles, g.off).h, c);
    } else {
      StreamDown(s, tiles, g.off);
    }
  }

  lemma QuietAtServer(g: Game, tiles: Tiles, op: Op)
    requires Inv(g, tiles) && Enabled(g.net.server, g.net.client, op) && (!op.Write? || op.ch != 0)
    ensures Inv(AtServer(g, op), tiles)
  {
    hide Link, Step, Log, CoveredTo, HandleAll, Enabled, Open, Said;
    var s, c := g.net.server, g.net.client;
    LinkSymmetric(c, s);
    StepKeeps(s, c, op);
    LinkSymmetric(Step(s, op), c);
    StepQuiet(s, op);
  }

  lemma QuietAtClient(g: Game, tiles: Tiles, op: Op)
    requires Inv(g, tiles) && Enabled(g.net.client, g.net.server, op) && (!op.Read? || op.rch != 0)
    ensures Inv(AtClient(g, op), tiles)
  {
    hide Link, Step, Log, CoveredTo, HandleAll, Enabled, Open, Said;
    StepKeeps(g.net.client, g.net.server, op);
    StepQuiet(g.net.client, op);
  }

  lemma HappenKeeps(g: Game, tiles: Tiles, e: Event)
    requires Inv(g, tiles) && CanHappen(g, e)
    ensures Inv(Happen(g, tiles, e), tiles)
  {
    hide Link, Step, Log, CoveredTo, HandleAll, Stream, Drained, Open, Said;
    match e
    case Net(a) =>
      if a.atServer { QuietAtServer(g, tiles, a.op); } else { QuietAtClient(g, tiles, a.op); }
    case ClientWrites(ch, data) => QuietAtClient(g, tiles, Op.Write(ch, data));
    case ClientReadsState(buflen) => QuietAtClient(g, tiles, Op.Read(1, buflen));
    case ServerReads(ch, buflen) => QuietAtServer(g, tiles, Op.Read(ch, buflen));
    case ServerState(state) => QuietAtServer(g, tiles, Op.Write(1, state));
    case Welcome(player) =>
      ServerWrites(g, tiles, [GM_WELCOME, player]);
      NothingCovered(Said(AtServer(g, Op.Write(0, [GM_WELCOME, player])).net.server));
    case Chat(text) => ServerWrites(g, tiles, [GM_CHAT] + text);
    case StreamMap => ServerStreams(g, tiles);
    case ClientDrain => DrainedTracks(g.net.client, g.net.server, g.client);
  }

  lemma {:induction false} PlayKeeps(g: Game, tiles: Tiles, es: seq<Event>)
    requires GameWf(g) && Inv(g, tiles) && CanPlay(g, tiles, es)
    ensures Inv(Play(g, tiles, es), tiles)
  {
    hide Happen, CanHappen, Inv;
    if es != [] {
      PlayKeeps(g, tiles, es[..|es| - 1]);
      HappenKeeps(Play(g, tiles, es[..|es| - 1]), tiles, es[|es| - 1]);
    }
  }

  /** Whatever the network does and however the writes interleave, a client that has
      announced the map holds exactly the server's tiles. */
  lemma MapArrivesIntact(clientId: u32, serverId: u32, tiles: Tiles, es: seq<Event>)
    requires CanPlay(Start(clientId, serverId), tiles, es)
    ensures var g := Play(Start(clientId, serverId), tiles, es);
            g.client.haveMap ==> g.client.tiles == tiles
  {
    hide Play, CanPlay, Inv;
    var g0 := Start(clientId, serverId);
    StartIsFine(clientId, serverId, tiles);
    PlayKeeps(g0, tiles, es);
    AnnouncedIsRight(Play(g0, tiles, es), tiles);
  }

  lemma AnnouncedIsRight(g: Game, tiles: Tiles)
    requires Inv(g, tiles)
    ensures g.client.haveMap ==> g.client.tiles == tiles
  {
    hide HandleAll, Project, HalfOk, WindowRefines, Log, Covered, CoveredTo;
    var c, s := g.net.client, g.net.server;
    assert ExactPrefix(s, c);
    ProjectPrefix(s.sent, c.rx, 0);
    var seen := c.got[0];
    assert seen <= Said(s);
    LogPrefix(Said(s), |seen|, tiles);
    assert Said(s)[..|seen|] == seen;
    HandledTiles(seen, tiles);
    if g.client.haveMap { AllCovered(g.client.tiles, tiles, seen); }
  }

  lemma AllCovered(t: Tiles, tiles: Tiles, ms: seq<seq<u8>>)
    requires CoveredTo(ms, MAP_BYTES) && forall i :: 0 <= i < MAP_BYTES && Covered(ms, i) ==> t[i] == tiles[i]
    ensures t == tiles
  {}

  lemma StartIsFine(clientId: u32, serverId: u32, tiles: Tiles)
    ensures Inv(Start(clientId, serverId), tiles)
  {
    InitialLink(clientId, serverId, LAYOUT);
  }
}
