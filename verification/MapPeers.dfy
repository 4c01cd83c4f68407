/** The map transfer as the program runs it: a server connection that streams its
    tiles and a client that assembles them, each on a connection object. */
module MapPeers {
  import opened Bytes
  import opened IpxWire
  import opened IpxEndpoint
  import opened IpxSystem
  import opened IpxNetchan
  import opened MapStream

  /** stream_map as a function of the endpoint alone. */
  function StreamEp(e: Endpoint, tiles: Tiles, off: nat): (r: (Endpoint, nat, bool))
    requires Shape(e) && off <= MAP_BYTES
    ensures Shape(r.0) && r.1 <= MAP_BYTES
    decreases MAP_BYTES - off
  {
    if off < MAP_BYTES then
      var (e', rc) := IpxEndpoint.Write(e, 0, ChunkMsg(tiles, off));
      if rc == NC_ERR_AGAIN then (e', off, false) else StreamEp(e', tiles, off + ChunkLen(off))
    else
      var (e', rc) := IpxEndpoint.Write(e, 0, [GM_MAPEND]);
      (e', off, rc != NC_ERR_AGAIN)
  }

  /** The endpoint part of the system step is exactly that function. */
  lemma {:induction false} StreamEpAgrees(h: Half, tiles: Tiles, off: nat)
    requires Wf(h) && off <= MAP_BYTES
    ensures var r := Stream(h, tiles, off);
            StreamEp(h.ep, tiles, off) == (r.h.ep, r.off, r.mapped)
    decreases MAP_BYTES - off
  {
    hide ChunkMsg, SameLayout, Shape;
    if off < MAP_BYTES {
      var m := ChunkMsg(tiles, off);
      AgainKeeps(h.ep, m);
      if !Again(h, m) {
        StreamEpAgrees(Step(h, Op.Write(0, m)), tiles, off + ChunkLen(off));
      }
    }
  }

  lemma AgainKeeps(e: Endpoint, data: seq<u8>)
    requires Shape(e)
    ensures IpxEndpoint.Write(e, 0, data).1 == NC_ERR_AGAIN ==> IpxEndpoint.Write(e, 0, data).0 == e
  {}

  class GameConn {
    const nc: Netchan
    var mapOff: u16
    var mapped: bool

    constructor (nc: Netchan)
      ensures this.nc == nc && mapOff == 0 && !mapped
    {
      this.nc, mapOff, mapped := nc, 0, false;
    }

    /** stream_map: write chunks until the window is full or the end marker is out. */
    method StreamMap(tiles: array<u8>)
      requires nc.Valid() && tiles.Length == MAP_BYTES && mapOff <= MAP_BYTES
      modifies this, nc`txNext, nc`txuHead, nc`txuCount, nc.txw, nc.txu
      ensures nc.Valid()
      ensures var (e, off, done) := StreamEp(old(nc.View()), tiles[..], old(mapOff));
              nc.View() == e && mapOff == off && mapped == (old(mapped) || done)
    {
      hide IpxEndpoint.Write, ChunkMsg, Shape;
      while mapOff < MAP_BYTES
        invariant nc.Valid() && mapOff <= MAP_BYTES && mapped == old(mapped)
        invariant StreamEp(nc.View(), tiles[..], mapOff) == StreamEp(old(nc.View()), tiles[..], old(mapOff))
        decreases MAP_BYTES - mapOff
      {
        var chunk := ChunkLen(mapOff);
        var buf := ChunkMsg(tiles[..], mapOff);
        var rc := nc.Write(0, buf);
        if rc == NC_ERR_AGAIN {
          return;
        }
        mapOff := mapOff + chunk as int;
      }
      var rc := nc.Write(0, [GM_MAPEND]);
      if rc != NC_ERR_AGAIN {
        mapped := true;
      }
    }
  }

  /** client_drain as a function of the endpoint and the client's fields. */
  function DrainedEp(e: Endpoint, c: Client): (r: (Endpoint, Client))
    requires Shape(e)
    ensures Shape(r.0)
    decreases |e.chans[0].queue|
  {
    var (e', n, m) := IpxEndpoint.Read(e, 0, NC_MTU);
    if n < 0 || e.chans[0].queue == [] then (e, c)
    else if n == 0 then (e', c)
    else DrainedEp(e', Handle(c, m))
  }

  lemma {:induction false} DrainedEpAgrees(h: Half, c: Client)
    requires Wf(h)
    ensures var (h', c') := Drained(h, c); DrainedEp(h.ep, c) == (h'.ep, c')
    decreases |h.ep.chans[0].queue|
  {
    hide Handle, SameLayout;
    var (_, n, m) := IpxEndpoint.Read(h.ep, 0, NC_MTU);
    if n > 0 && h.ep.chans[0].queue != [] {
      DrainedEpAgrees(Step(h, Op.Read(0, NC_MTU)), Handle(c, m));
    }
  }

  class GameClient {
    const nc: Netchan
    const tiles: array<u8>
    var mapOff: u16
    var haveMap: bool
    var player: u8

    ghost predicate Valid()
      reads this, nc, nc.txw, nc.txu, nc.chan
    {
      nc.Valid() && tiles.Length == MAP_BYTES
    }

    ghost function State(): Client
      reads this, tiles, nc, nc.txw, nc.txu, nc.chan
      requires Valid()
    {
      Client(tiles[..], mapOff, haveMap, player)
    }

    constructor (nc: Netchan)
      requires nc.Valid()
      ensures Valid() && this.nc == nc && State() == BLANK && fresh(tiles)
    {
      this.nc := nc;
      tiles := new u8[MAP_BYTES](_ => 0);
      mapOff, haveMap, player := 0, false, 0xff;
      new;
      assert tiles[..] == Walls(MAP_BYTES);
    }

    /** One message of client_drain: `n` bytes in `msg`. */
    method HandleMessage(msg: array<u8>, n: nat)
      requires Valid() && 0 < n <= msg.Length && msg != tiles
      modifies this, tiles
      ensures Valid() && State() == Handle(old(State()), msg[..n])
    {
      if msg[0] == GM_WELCOME {
        if n >= 2 {
          player := msg[1];
        }
      } else if msg[0] == GM_MAP {
        if n >= 5 {
          ghost var m := msg[..n];
          assert m[1..3] == msg[1..3] && m[3..5] == msg[3..5];
          var off, ln := Rd16(msg[1..3]), Rd16(msg[3..5]);
          if off + ln as int <= MAP_BYTES && 5 + ln as int <= n {
            assert m[5..5 + ln] == msg[5..5 + ln];
            CopyIn(tiles, off, msg[5..5 + ln]);
            assert tiles[..] == tiles[..off] + tiles[off..off + ln as int] + tiles[off + ln as int..];
            mapOff := off + ln as int;
          }
        }
      } else if msg[0] == GM_MAPEND {
        haveMap := true;
      }
    }

    /** The reliable loop of client_drain. */
    method Drain()
      requires Valid()
      modifies this, tiles, nc.chan
      ensures Valid()
      ensures (nc.View(), State()) == DrainedEp(old(nc.View()), old(State()))
    {
      hide Handle, Shape;
      var msg := new u8[NC_MTU];
      var n := 1;
      while n > 0
        invariant Valid() && fresh(msg) && msg.Length == NC_MTU
        invariant n > 0 ==> DrainedEp(nc.View(), State()) == DrainedEp(old(nc.View()), old(State()))
        invariant n <= 0 ==> (nc.View(), State()) == DrainedEp(old(nc.View()), old(State()))
        decreases n > 0, if n > 0 then |nc.View().chans[0].queue| + 1 else 0
      {
        ghost var e := nc.View();
        n := nc.Read(0, msg);
        if n > 0 {
          HandleMessage(msg, n);
        }
      }
    }
  }
}
